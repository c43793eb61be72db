/**
 * The date-range selector (src/components/TimelineSelector.tsx): a two-thumb
 * slider over positions 0..100 stands for day offsets 0..daysDiff from the
 * first story's day, and a calendar picker can set the slider from a range.
 * Arithmetic is exact integer arithmetic; `Math.floor` and `Math.round` are
 * written out.
 */
module Timeline {
  import opened Wrappers
  import opened Dates

  /** The positions of the bottom and top thumbs. */
  datatype SliderValues = SliderValues(bottom: int, top: int)

  /** The calendar's range; while the user has clicked only one day, `to` is missing. */
  datatype PickerRange = PickerRange(from: Option<Day>, to: Option<Day>)

  /** The slider allows integer positions from 0 to 100. */
  predicate InSliderRange(v: int)
  {
    0 <= v <= 100
  }

  /** `Math.floor((v / 100) * daysDiff)`. */
  function SliderOffset(v: int, daysDiff: int): (off: int)
    ensures 100 * off <= v * daysDiff < 100 * (off + 1)
  {
    (v * daysDiff) / 100
  }

  lemma MulMonotone(a: int, b: int, c: int)
    requires a >= 0 && b <= c
    ensures a * b <= a * c
  {
    assert a * c - a * b == a * (c - b);
  }

  /** A slider position in range names a day offset inside the span. */
  lemma SliderOffsetInSpan(v: int, daysDiff: int)
    requires InSliderRange(v) && daysDiff >= 0
    ensures 0 <= SliderOffset(v, daysDiff) <= daysDiff
  {
    MulMonotone(daysDiff, 0, v);
    MulMonotone(daysDiff, v, 100);
  }

  /** `getSelectedDates` on given thumbs: the two offset days, the earlier one first. */
  function SelectedDatesFor(minDay: Day, daysDiff: int, s: SliderValues): (span: DateSpan)
    ensures span.start <= span.end
    ensures multiset{span.start, span.end} ==
      multiset{minDay + SliderOffset(s.bottom, daysDiff), minDay + SliderOffset(s.top, daysDiff)}
  {
    var startDate := minDay + SliderOffset(s.bottom, daysDiff);
    var endDate := minDay + SliderOffset(s.top, daysDiff);
    if startDate > endDate then DateSpan(endDate, startDate) else DateSpan(startDate, endDate)
  }

  /** Both selected days lie in `[minDay, minDay + daysDiff]`. */
  lemma SelectedDatesInSpan(minDay: Day, daysDiff: int, s: SliderValues)
    requires daysDiff >= 0 && InSliderRange(s.bottom) && InSliderRange(s.top)
    ensures minDay <= SelectedDatesFor(minDay, daysDiff, s).start
    ensures SelectedDatesFor(minDay, daysDiff, s).end <= minDay + daysDiff
  {
    SliderOffsetInSpan(s.bottom, daysDiff);
    SliderOffsetInSpan(s.top, daysDiff);
  }

  /** The initial thumbs `[100, 100]` select the last day alone. */
  lemma InitialSliderSelectsLastDay(minDay: Day, daysDiff: int)
    ensures SelectedDatesFor(minDay, daysDiff, SliderValues(100, 100)) == DateSpan(minDay + daysDiff, minDay + daysDiff)
  {
  }

  /** "Alle data", the thumbs `[0, 100]`, selects the whole span. */
  lemma AllDatesSelectsWholeSpan(minDay: Day, daysDiff: int)
    requires daysDiff >= 0
    ensures SelectedDatesFor(minDay, daysDiff, SliderValues(0, 100)) == DateSpan(minDay, minDay + daysDiff)
  {
  }

  /** `Math.max(0, Math.min(x, daysDiff))`. */
  function ClampOffset(x: int, daysDiff: int): (off: int)
    requires daysDiff >= 0
    ensures 0 <= off <= daysDiff
    ensures 0 <= x <= daysDiff ==> off == x
    ensures x < 0 ==> off == 0
    ensures x > daysDiff ==> off == daysDiff
  {
    if x < 0 then 0 else if x > daysDiff then daysDiff else x
  }

  /** `Math.round((off / daysDiff) * 100)`: the nearest position, halves rounded up. */
  function PickerSliderValue(off: int, daysDiff: int): (v: int)
    requires daysDiff > 0
    ensures 2 * daysDiff * v <= 200 * off + daysDiff < 2 * daysDiff * (v + 1)
  {
    (200 * off + daysDiff) / (2 * daysDiff)
  }

  lemma PickerSliderValueInRange(off: int, daysDiff: int)
    requires daysDiff > 0 && 0 <= off <= daysDiff
    ensures InSliderRange(PickerSliderValue(off, daysDiff))
  {
    var v := PickerSliderValue(off, daysDiff);
    if v < 0 {
      MulMonotone(2 * daysDiff, v + 1, 0);
    }
    if v > 100 {
      MulMonotone(2 * daysDiff, 101, v);
    }
  }

  lemma PickerSliderValueMonotone(off1: int, off2: int, daysDiff: int)
    requires daysDiff > 0 && off1 <= off2
    ensures PickerSliderValue(off1, daysDiff) <= PickerSliderValue(off2, daysDiff)
  {
    var v1, v2 := PickerSliderValue(off1, daysDiff), PickerSliderValue(off2, daysDiff);
    if v1 > v2 {
      MulMonotone(2 * daysDiff, v2 + 1, v1);
    }
  }

  /** The earlier and the later of the two picked days (`isAfter` is strict). */
  function Ordered(fromDate: Day, toDate: Day): (r: DateSpan)
    ensures r.start <= r.end
    ensures multiset{r.start, r.end} == multiset{fromDate, toDate}
  {
    if fromDate > toDate then DateSpan(toDate, fromDate) else DateSpan(fromDate, toDate)
  }

  /** The thumbs `handleDatePickerSelect` sets for a complete range. */
  function PickerToSlider(minDay: Day, daysDiff: int, fromDate: Day, toDate: Day): (s: SliderValues)
    requires daysDiff >= 0
    ensures InSliderRange(s.bottom) && InSliderRange(s.top) && s.bottom <= s.top
    ensures daysDiff == 0 ==> s == SliderValues(100, 100)
  {
    var ordered := Ordered(fromDate, toDate);
    if daysDiff == 0 then SliderValues(100, 100)
    else
      var startOffset := ClampOffset(ordered.start - minDay, daysDiff);
      var endOffset := ClampOffset(ordered.end - minDay, daysDiff);
      PickerSliderValueInRange(startOffset, daysDiff);
      PickerSliderValueInRange(endOffset, daysDiff);
      PickerSliderValueMonotone(startOffset, endOffset, daysDiff);
      SliderValues(PickerSliderValue(startOffset, daysDiff), PickerSliderValue(endOffset, daysDiff))
  }

  /**
   * As written, picking a range does not always select it: over the catalogue's
   * seven days (2023-05-05 to 2023-05-12), picking 2023-05-06 to 2023-05-12 puts the
   * bottom thumb at 14, and position 14 selects 2023-05-05.
   */
  lemma PickedRangeLosesADay()
    ensures PickerToSlider(19482, 7, 19483, 19489) == SliderValues(14, 100)
    ensures SelectedDatesFor(19482, 7, SliderValues(14, 100)) == DateSpan(19482, 19489)
  {
  }

  /** The smallest position whose offset is `off`: `Math.ceil` instead of `Math.round`. */
  function PickerSliderValueCeil(off: int, daysDiff: int): (v: int)
    requires daysDiff > 0
    ensures daysDiff * (v - 1) < 100 * off <= daysDiff * v
  {
    (100 * off + daysDiff - 1) / daysDiff
  }

  /** For spans of at most 100 days, the rounded-up position reads back as the same offset. */
  lemma PickerSliderValueCeilRoundTrip(off: int, daysDiff: int)
    requires 0 < daysDiff <= 100 && 0 <= off <= daysDiff
    ensures InSliderRange(PickerSliderValueCeil(off, daysDiff))
    ensures SliderOffset(PickerSliderValueCeil(off, daysDiff), daysDiff) == off
  {
    var v := PickerSliderValueCeil(off, daysDiff);
    if v < 0 {
      MulMonotone(daysDiff, v, -1);
    }
    if v > 100 {
      MulMonotone(daysDiff, 100, v - 1);
    }
    assert v * daysDiff == daysDiff * v;
  }

  /** The corrected thumbs for a complete picked range. */
  function PickerToSliderCeil(minDay: Day, daysDiff: int, fromDate: Day, toDate: Day): (s: SliderValues)
    requires 0 <= daysDiff <= 100
    ensures InSliderRange(s.bottom) && InSliderRange(s.top)
  {
    var ordered := Ordered(fromDate, toDate);
    if daysDiff == 0 then SliderValues(100, 100)
    else
      var startOffset := ClampOffset(ordered.start - minDay, daysDiff);
      var endOffset := ClampOffset(ordered.end - minDay, daysDiff);
      PickerSliderValueCeilRoundTrip(startOffset, daysDiff);
      PickerSliderValueCeilRoundTrip(endOffset, daysDiff);
      SliderValues(PickerSliderValueCeil(startOffset, daysDiff), PickerSliderValueCeil(endOffset, daysDiff))
  }

  /** In exact arithmetic, with the correction, a range picked inside the span is exactly the range selected. */
  lemma PickedRangeIsSelected(minDay: Day, daysDiff: int, fromDate: Day, toDate: Day)
    requires 0 <= daysDiff <= 100
    requires minDay <= fromDate <= minDay + daysDiff && minDay <= toDate <= minDay + daysDiff
    ensures SelectedDatesFor(minDay, daysDiff, PickerToSliderCeil(minDay, daysDiff, fromDate, toDate))
      == Ordered(fromDate, toDate)
  {
    var ordered := Ordered(fromDate, toDate);
    if daysDiff > 0 {
      PickerSliderValueCeilRoundTrip(ordered.start - minDay, daysDiff);
      PickerSliderValueCeilRoundTrip(ordered.end - minDay, daysDiff);
    }
  }

  /** A picked range with both ends. */
  predicate IsComplete(range: Option<PickerRange>)
  {
    range.Some? && range.value.from.Some? && range.value.to.Some?
  }

  /** The selector's state: its slider, its popover and the calendar's range. */
  class TimelineSelector {
    const minDay: Day
    const maxDay: Day
    /** `Math.round(ms difference / ms per day)`, which on whole days is the difference in days. */
    const daysDiff: int
    var sliderValues: SliderValues
    var showDatePicker: bool
    var selectedDateRangeForPicker: Option<PickerRange>

    ghost predicate Valid()
      reads this
    {
      minDay <= maxDay && daysDiff == maxDay - minDay &&
      InSliderRange(sliderValues.bottom) && InSliderRange(sliderValues.top)
    }

    constructor (minDay: Day, maxDay: Day)
      requires minDay <= maxDay
      ensures Valid()
      ensures this.minDay == minDay && this.maxDay == maxDay
      ensures sliderValues == SliderValues(100, 100) && !showDatePicker
      ensures selectedDateRangeForPicker == Some(PickerRange(Some(maxDay), Some(maxDay)))
    {
      this.minDay := minDay;
      this.maxDay := maxDay;
      daysDiff := maxDay - minDay;
      sliderValues := SliderValues(100, 100);
      showDatePicker := false;
      var initial := SelectedDatesFor(minDay, maxDay - minDay, SliderValues(100, 100));
      InitialSliderSelectsLastDay(minDay, maxDay - minDay);
      selectedDateRangeForPicker := Some(PickerRange(Some(initial.start), Some(initial.end)));
    }

    /** `getSelectedDates`, the range the selector reports to the feed page. */
    function SelectedDates(): (span: DateSpan)
      reads this
      requires Valid()
      ensures minDay <= span.start <= span.end <= maxDay
    {
      SelectedDatesInSpan(minDay, daysDiff, sliderValues);
      SelectedDatesFor(minDay, daysDiff, sliderValues)
    }

    /** The slider's `onValueChange`. */
    method SetSliderValues(values: SliderValues)
      requires Valid() && InSliderRange(values.bottom) && InSliderRange(values.top)
      modifies this
      ensures Valid()
      ensures sliderValues == values
      ensures showDatePicker == old(showDatePicker) && selectedDateRangeForPicker == old(selectedDateRangeForPicker)
    {
      sliderValues := values;
    }

    /** `handleDatePickerSelect`. */
    method HandleDatePickerSelect(newRange: Option<PickerRange>)
      requires Valid()
      modifies this
      ensures Valid()
      ensures selectedDateRangeForPicker == newRange
      ensures IsComplete(newRange) ==>
        !showDatePicker &&
        sliderValues == PickerToSlider(minDay, daysDiff, newRange.value.from.value, newRange.value.to.value)
      ensures daysDiff == 0 && IsComplete(newRange) ==> sliderValues == SliderValues(100, 100)
      ensures !IsComplete(newRange) ==>
        showDatePicker == old(showDatePicker) && sliderValues == old(sliderValues)
    {
      selectedDateRangeForPicker := newRange;
      if newRange.Some? && newRange.value.from.Some? && newRange.value.to.Some? {
        showDatePicker := false;
        var fromDate := newRange.value.from.value;
        var toDate := newRange.value.to.value;
        var orderedFromDate := if fromDate > toDate then toDate else fromDate;
        var orderedToDate := if fromDate > toDate then fromDate else toDate;
        if daysDiff == 0 {
          sliderValues := SliderValues(100, 100);
          return;
        }
        var startDaysOffset := ClampOffset(orderedFromDate - minDay, daysDiff);
        var endDaysOffset := ClampOffset(orderedToDate - minDay, daysDiff);
        PickerSliderValueInRange(startDaysOffset, daysDiff);
        PickerSliderValueInRange(endDaysOffset, daysDiff);
        sliderValues := SliderValues(PickerSliderValue(startDaysOffset, daysDiff), PickerSliderValue(endDaysOffset, daysDiff));
      }
    }

    /** The effect on `sliderValues` that copies the selected days into the calendar when they differ. */
    method SyncPicker()
      requires Valid()
      modifies this`selectedDateRangeForPicker
      ensures selectedDateRangeForPicker == Some(PickerRange(Some(SelectedDates().start), Some(SelectedDates().end)))
    {
      var current := SelectedDates();
      if selectedDateRangeForPicker.None? ||
         selectedDateRangeForPicker.value.from != Some(current.start) ||
         selectedDateRangeForPicker.value.to != Some(current.end)
      {
        selectedDateRangeForPicker := Some(PickerRange(Some(current.start), Some(current.end)));
      }
    }

    /** The popover's `onOpenChange`. */
    method SetShowDatePicker(open: bool)
      modifies this`showDatePicker
      ensures showDatePicker == open
    {
      showDatePicker := open;
    }

    /** The "Alle data" button. */
    method ShowAllDates()
      requires Valid()
      modifies this
      ensures Valid()
      ensures sliderValues == SliderValues(0, 100)
      ensures SelectedDates() == DateSpan(minDay, maxDay)
      ensures showDatePicker == old(showDatePicker) && selectedDateRangeForPicker == old(selectedDateRangeForPicker)
    {
      sliderValues := SliderValues(0, 100);
      AllDatesSelectsWholeSpan(minDay, daysDiff);
    }
  }
}
