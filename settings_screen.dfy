/** The logic of the settings screens, apart from their layout: the
    segment labels and the patches the screens pass to the settings store's
    `set`, the quiet-hours summary, and the pair of inline quiet-hours
    editors with their open flags and draft values. */
module SettingsScreen {
  import opened Wrappers
  import opened Text
  import opened Notify
  import opened SettingsStore
  import opened TimeInput

  // ----- segment labels -----

  /** `settings.timeFormat24h ? "24h" : "12h"`. */
  function TimeFormatLabel(use24h: bool): string {
    if use24h then "24h" else "12h"
  }

  /** `v === "24h"`. */
  function TimeFormatChoice(segment: string): bool {
    segment == "24h"
  }

  /** `settings.firstDayMonday ? "Mon" : "Sun"`. */
  function FirstDayLabel(monday: bool): string {
    if monday then "Mon" else "Sun"
  }

  /** `v === "Mon"`. */
  function FirstDayChoice(segment: string): bool {
    segment == "Mon"
  }

  /** `settings.theme[0].toUpperCase() + settings.theme.slice(1)`. */
  function ThemeLabel(theme: string): string
    requires |theme| > 0
  {
    Capitalize(theme)
  }

  /** `v.toLowerCase()`. */
  function ThemeChoice(segment: string): string {
    ToLower(segment)
  }

  const ThemeNames: seq<string> := ["system", "light", "dark"]
  const ThemeSegments: seq<string> := ["System", "Light", "Dark"]

  /** The time-format label and choice are inverse to each other on the two
      segments. */
  lemma TimeFormatRoundTrip(use24h: bool, segment: string)
    ensures TimeFormatChoice(TimeFormatLabel(use24h)) == use24h
    ensures segment == "12h" || segment == "24h" ==> TimeFormatLabel(TimeFormatChoice(segment)) == segment
    ensures TimeFormatLabel(use24h) == "12h" || TimeFormatLabel(use24h) == "24h"
  {
  }

  /** The first-day label and choice are inverse to each other on the two
      segments. */
  lemma FirstDayRoundTrip(monday: bool, segment: string)
    ensures FirstDayChoice(FirstDayLabel(monday)) == monday
    ensures segment == "Sun" || segment == "Mon" ==> FirstDayLabel(FirstDayChoice(segment)) == segment
    ensures FirstDayLabel(monday) == "Sun" || FirstDayLabel(monday) == "Mon"
  {
  }

  /** Choosing the segment a theme is shown as gives the theme back, for
      every non-empty lower-case name. */
  lemma ThemeRoundTrip(theme: string)
    requires |theme| > 0 && IsLowerWord(theme)
    ensures ThemeChoice(ThemeLabel(theme)) == theme
  {
    CapitalizeThenLower(theme);
  }

  /** The three theme names are shown as the three segments, and choosing a
      segment gives back the name shown as it. */
  lemma ThemeSegmentsRoundTrip(i: int)
    requires 0 <= i < 3
    ensures ThemeLabel(ThemeNames[i]) == ThemeSegments[i]
    ensures ThemeChoice(ThemeSegments[i]) == ThemeNames[i]
  {
    ThemeRoundTrip(ThemeNames[i]);
  }

  // ----- the patches the screens pass to `set` -----

  /** The patch of the time-format segment. */
  function TimeFormatPatch(segment: string): SettingsPatch {
    EmptyPatch.(timeFormat24h := Some(TimeFormatChoice(segment)))
  }

  /** The patch of the first-day segment. */
  function FirstDayPatch(segment: string): SettingsPatch {
    EmptyPatch.(firstDayMonday := Some(FirstDayChoice(segment)))
  }

  /** The patch of the theme segment. */
  function ThemePatch(segment: string): SettingsPatch {
    EmptyPatch.(theme := Some(ThemeChoice(segment)))
  }

  /** Pressing the segment that is already selected changes no setting. */
  lemma SelectedSegmentChangesNothing(s: Settings)
    ensures Merge(s, TimeFormatPatch(TimeFormatLabel(s.timeFormat24h))) == s
    ensures Merge(s, FirstDayPatch(FirstDayLabel(s.firstDayMonday))) == s
    ensures |s.theme| > 0 && IsLowerWord(s.theme) ==> Merge(s, ThemePatch(ThemeLabel(s.theme))) == s
  {
    if |s.theme| > 0 && IsLowerWord(s.theme) {
      ThemeRoundTrip(s.theme);
    }
  }

  /** "Top up +100": both bank fields in one patch, the bank capped at the
      new maximum. */
  function TopUpPatch(s: Settings): SettingsPatch {
    EmptyPatch.(
      smsBank := Some(Min(s.smsBank + 100, s.smsBankMax + 100)),
      smsBankMax := Some(s.smsBankMax + 100))
  }

  /** A top-up raises the maximum by exactly 100 and never leaves the bank
      above it; a bank that was within its maximum grows by exactly 100 and
      stays within it. Nothing else changes. */
  lemma TopUpKeepsBankBound(s: Settings)
    ensures var t := Merge(s, TopUpPatch(s));
      t.smsBankMax == s.smsBankMax + 100
      && t.smsBank <= t.smsBankMax
      && t == s.(smsBank := t.smsBank, smsBankMax := t.smsBankMax)
    ensures var t := Merge(s, TopUpPatch(s));
      BankWithinMax(s) ==> BankWithinMax(t) && t.smsBank == s.smsBank + 100
    ensures var t := Merge(s, TopUpPatch(s));
      s.smsBank > s.smsBankMax ==> t.smsBank == t.smsBankMax
  {
  }

  /** "Change Plan": Free to Pro, Pro to Elite, anything else to Free. */
  function NextPlan(p: Plan): Plan {
    if p == Free then Pro else if p == Pro then Elite else Free
  }

  function PlanPatch(s: Settings): SettingsPatch {
    EmptyPatch.(plan := Some(NextPlan(s.plan)))
  }

  /** The plan cycles with period exactly three. */
  lemma PlanCycle(p: Plan)
    ensures NextPlan(NextPlan(NextPlan(p))) == p
    ensures NextPlan(p) != p && NextPlan(NextPlan(p)) != p
  {
  }

  /** Three presses of "Change Plan" bring the settings back. */
  lemma ThreePlanPresses(s: Settings)
    ensures var s1 := Merge(s, PlanPatch(s));
      var s2 := Merge(s1, PlanPatch(s1));
      Merge(s2, PlanPatch(s2)) == s
  {
    PlanCycle(s.plan);
  }

  datatype Slot = Morning | Afternoon | Evening

  function SlotTime(d: DefaultTimes, slot: Slot): string {
    match slot
    case Morning => d.morning
    case Afternoon => d.afternoon
    case Evening => d.evening
  }

  /** `set({ defaultTimes: { ...settings.defaultTimes, [slot]: v } })`. */
  function DefaultTimePatch(s: Settings, slot: Slot, v: string): SettingsPatch {
    var d := s.defaultTimes;
    EmptyPatch.(defaultTimes := Some(
      match slot
      case Morning => d.(morning := v)
      case Afternoon => d.(afternoon := v)
      case Evening => d.(evening := v)))
  }

  /** Editing one default time sets that slot and keeps the other two and
      every other setting. */
  lemma DefaultTimeTouchesOnlySlot(s: Settings, slot: Slot, v: string, other: Slot)
    ensures SlotTime(Merge(s, DefaultTimePatch(s, slot, v)).defaultTimes, slot) == v
    ensures other != slot ==>
      SlotTime(Merge(s, DefaultTimePatch(s, slot, v)).defaultTimes, other) == SlotTime(s.defaultTimes, other)
    ensures Merge(s, DefaultTimePatch(s, slot, v)).(defaultTimes := s.defaultTimes) == s
  {
  }

  /** The quiet-hours button: flip `quietHoursEnabled`. */
  function ToggleQuietPatch(s: Settings): SettingsPatch {
    EmptyPatch.(quietHoursEnabled := Some(!s.quietHoursEnabled))
  }

  /** Two presses restore the settings; one press flips only the flag. */
  lemma ToggleQuietTwice(s: Settings)
    ensures var s1 := Merge(s, ToggleQuietPatch(s));
      s1 == s.(quietHoursEnabled := !s.quietHoursEnabled)
      && Merge(s1, ToggleQuietPatch(s1)) == s
  {
  }

  /** The quiet-hours line: "Off", or "On · start–end". */
  function QuietSummary(s: Settings): string {
    if s.quietHoursEnabled then "On · " + s.quietHoursStart + "–" + s.quietHoursEnd else "Off"
  }

  /** The summary is "Off" exactly when quiet hours are disabled, and
      otherwise shows the start and the end at fixed places. */
  lemma QuietSummaryShows(s: Settings)
    ensures QuietSummary(s) == "Off" <==> !s.quietHoursEnabled
    ensures s.quietHoursEnabled ==>
      var r := QuietSummary(s);
      var a := |s.quietHoursStart|;
      |r| == a + |s.quietHoursEnd| + 6
      && r[..5] == "On · "
      && r[5..5 + a] == s.quietHoursStart
      && r[5 + a] == '–'
      && r[6 + a..] == s.quietHoursEnd
  {
    if s.quietHoursEnabled {
      var r := QuietSummary(s);
      assert r[1] == 'n';
    }
  }

  // ----- the inline quiet-hours editors -----

  /** The Start and End editors: which is open, and each one's draft. */
  class QuietHoursEditor {
    var editStart: bool
    var editEnd: bool
    var tempStart: string
    var tempEnd: string
    const store: Store

    /** At most one editor is open. */
    predicate OneOpen()
      reads this
    {
      !(editStart && editEnd)
    }

    constructor(store: Store)
      ensures this.store == store
      ensures !editStart && !editEnd && OneOpen()
      ensures tempStart == store.settings.quietHoursStart && tempEnd == store.settings.quietHoursEnd
    {
      this.store := store;
      editStart := false;
      editEnd := false;
      tempStart := store.settings.quietHoursStart;
      tempEnd := store.settings.quietHoursEnd;
    }

    /** Pressing the Start row: load the saved start into the draft, toggle
        the Start editor, close the End editor. */
    method PressStart()
      modifies this
      ensures tempStart == store.settings.quietHoursStart && tempEnd == old(tempEnd)
      ensures editStart == !old(editStart) && !editEnd
      ensures OneOpen()
    {
      tempStart := store.settings.quietHoursStart;
      editStart := !editStart;
      editEnd := false;
    }

    /** Pressing the End row, symmetrically. */
    method PressEnd()
      modifies this
      ensures tempEnd == store.settings.quietHoursEnd && tempStart == old(tempStart)
      ensures editEnd == !old(editEnd) && !editStart
      ensures OneOpen()
    {
      tempEnd := store.settings.quietHoursEnd;
      editEnd := !editEnd;
      editStart := false;
    }

    /** Finishing an edit in the Start field: the trimmed text normalised
        against the current draft. Trimming changes nothing, so the draft is
        either kept or becomes a valid clock text. */
    method EndEditingStart(text: string)
      modifies this
      ensures tempStart == NormalizeDigits(old(tempStart), text)
      ensures tempStart == old(tempStart) || IsClock(tempStart)
      ensures editStart == old(editStart) && editEnd == old(editEnd) && tempEnd == old(tempEnd)
    {
      NormalizeDigitsOfTrim(tempStart, text);
      NormalizeDigitsResult(tempStart, text);
      tempStart := NormalizeDigits(tempStart, Trim(text));
    }

    method EndEditingEnd(text: string)
      modifies this
      ensures tempEnd == NormalizeDigits(old(tempEnd), text)
      ensures tempEnd == old(tempEnd) || IsClock(tempEnd)
      ensures editStart == old(editStart) && editEnd == old(editEnd) && tempStart == old(tempStart)
    {
      NormalizeDigitsOfTrim(tempEnd, text);
      NormalizeDigitsResult(tempEnd, text);
      tempEnd := NormalizeDigits(tempEnd, Trim(text));
    }

    /** Save in the Start editor: write the draft, then close the editor. */
    method SaveStart()
      modifies this, store, store.log
      ensures store.settings == old(store.settings).(quietHoursStart := old(tempStart))
      ensures store.log.events == old(store.log.events) + [SettingsEmit]
      ensures !editStart && editEnd == old(editEnd) && OneOpen()
      ensures tempStart == old(tempStart) && tempEnd == old(tempEnd)
    {
      store.Set(EmptyPatch.(quietHoursStart := Some(tempStart)));
      editStart := false;
    }

    method SaveEnd()
      modifies this, store, store.log
      ensures store.settings == old(store.settings).(quietHoursEnd := old(tempEnd))
      ensures store.log.events == old(store.log.events) + [SettingsEmit]
      ensures !editEnd && editStart == old(editStart) && OneOpen()
      ensures tempStart == old(tempStart) && tempEnd == old(tempEnd)
    {
      store.Set(EmptyPatch.(quietHoursEnd := Some(tempEnd)));
      editEnd := false;
    }

    /** Cancel closes the editor without writing anything. */
    method CancelStart()
      modifies this
      ensures !editStart && editEnd == old(editEnd) && OneOpen()
      ensures tempStart == old(tempStart) && tempEnd == old(tempEnd)
    {
      editStart := false;
    }

    method CancelEnd()
      modifies this
      ensures !editEnd && editStart == old(editStart) && OneOpen()
      ensures tempStart == old(tempStart) && tempEnd == old(tempEnd)
    {
      editEnd := false;
    }
  }
}
