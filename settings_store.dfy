/** The settings store: one module-level settings record, replaced by a
    shallow spread of a partial patch on every `set`, each followed by one
    `emit`. */
module SettingsStore {
  import opened Wrappers
  import opened Notify

  datatype Intensity = Gentle | Standard | Firm

  datatype Plan = Free | Pro | Elite

  /** Reminder times per part of the day, each "HH:mm". */
  datatype DefaultTimes = DefaultTimes(morning: string, afternoon: string, evening: string)

  /** The whole record. `theme` is "system", "light" or "dark" by its
      declared type, but the settings screen stores a lower-cased label
      without a check, so it is kept as a string here. */
  datatype Settings = Settings(
    firstDayMonday: bool,
    timeFormat24h: bool,
    intensity: Intensity,
    quietHoursEnabled: bool,
    quietHoursStart: string,
    quietHoursEnd: string,
    channelsPush: bool,
    channelsSMS: bool,
    smsBank: int,
    smsBankMax: int,
    defaultTimes: DefaultTimes,
    theme: string,
    plan: Plan)

  /** A `Partial<Settings>`: Some(v) for each key the patch has. The spread
      is shallow, so `defaultTimes` is replaced as a whole. */
  datatype SettingsPatch = SettingsPatch(
    firstDayMonday: Option<bool>,
    timeFormat24h: Option<bool>,
    intensity: Option<Intensity>,
    quietHoursEnabled: Option<bool>,
    quietHoursStart: Option<string>,
    quietHoursEnd: Option<string>,
    channelsPush: Option<bool>,
    channelsSMS: Option<bool>,
    smsBank: Option<int>,
    smsBankMax: Option<int>,
    defaultTimes: Option<DefaultTimes>,
    theme: Option<string>,
    plan: Option<Plan>)

  const EmptyPatch := SettingsPatch(None, None, None, None, None, None, None, None, None, None, None, None, None)

  /** The record the app starts with. */
  const InitialSettings := Settings(
    false, false, Standard, true, "22:00", "07:00", true, false, 40, 40,
    DefaultTimes("09:00", "13:00", "18:00"), "system", Pro)

  /** `{ ...settings, ...patch }`. */
  function Merge(s: Settings, p: SettingsPatch): Settings {
    Settings(
      p.firstDayMonday.GetOr(s.firstDayMonday),
      p.timeFormat24h.GetOr(s.timeFormat24h),
      p.intensity.GetOr(s.intensity),
      p.quietHoursEnabled.GetOr(s.quietHoursEnabled),
      p.quietHoursStart.GetOr(s.quietHoursStart),
      p.quietHoursEnd.GetOr(s.quietHoursEnd),
      p.channelsPush.GetOr(s.channelsPush),
      p.channelsSMS.GetOr(s.channelsSMS),
      p.smsBank.GetOr(s.smsBank),
      p.smsBankMax.GetOr(s.smsBankMax),
      p.defaultTimes.GetOr(s.defaultTimes),
      p.theme.GetOr(s.theme),
      p.plan.GetOr(s.plan))
  }

  /** The single patch equivalent to `p` followed by `q`: a key of `q`
      wins over the same key of `p`. */
  function Compose(p: SettingsPatch, q: SettingsPatch): SettingsPatch {
    SettingsPatch(
      q.firstDayMonday.Or(p.firstDayMonday),
      q.timeFormat24h.Or(p.timeFormat24h),
      q.intensity.Or(p.intensity),
      q.quietHoursEnabled.Or(p.quietHoursEnabled),
      q.quietHoursStart.Or(p.quietHoursStart),
      q.quietHoursEnd.Or(p.quietHoursEnd),
      q.channelsPush.Or(p.channelsPush),
      q.channelsSMS.Or(p.channelsSMS),
      q.smsBank.Or(p.smsBank),
      q.smsBankMax.Or(p.smsBankMax),
      q.defaultTimes.Or(p.defaultTimes),
      q.theme.Or(p.theme),
      q.plan.Or(p.plan))
  }

  /** The SMS bank holds no more than its maximum. */
  predicate BankWithinMax(s: Settings) {
    0 <= s.smsBank <= s.smsBankMax
  }

  /** The patch touches neither SMS bank field. */
  predicate LeavesBankAlone(p: SettingsPatch) {
    p.smsBank.None? && p.smsBankMax.None?
  }

  // ----- properties -----

  /** An empty patch changes nothing. */
  lemma MergeEmpty(s: Settings)
    ensures Merge(s, EmptyPatch) == s
  {
  }

  /** Applying the same patch twice is applying it once. */
  lemma MergeIdempotent(s: Settings, p: SettingsPatch)
    ensures Merge(Merge(s, p), p) == Merge(s, p)
  {
  }

  /** Two patches in a row are one composed patch: later keys win. */
  lemma MergeCompose(s: Settings, p: SettingsPatch, q: SettingsPatch)
    ensures Merge(Merge(s, p), q) == Merge(s, Compose(p, q))
  {
  }

  /** Patches that touch disjoint keys commute. */
  lemma MergeCommutesWhenDisjoint(s: Settings, p: SettingsPatch, q: SettingsPatch)
    requires p.firstDayMonday.None? || q.firstDayMonday.None?
    requires p.timeFormat24h.None? || q.timeFormat24h.None?
    requires p.intensity.None? || q.intensity.None?
    requires p.quietHoursEnabled.None? || q.quietHoursEnabled.None?
    requires p.quietHoursStart.None? || q.quietHoursStart.None?
    requires p.quietHoursEnd.None? || q.quietHoursEnd.None?
    requires p.channelsPush.None? || q.channelsPush.None?
    requires p.channelsSMS.None? || q.channelsSMS.None?
    requires p.smsBank.None? || q.smsBank.None?
    requires p.smsBankMax.None? || q.smsBankMax.None?
    requires p.defaultTimes.None? || q.defaultTimes.None?
    requires p.theme.None? || q.theme.None?
    requires p.plan.None? || q.plan.None?
    ensures Merge(Merge(s, p), q) == Merge(Merge(s, q), p)
  {
  }

  /** The initial record has its bank within its maximum. */
  lemma InitialBankWithinMax()
    ensures BankWithinMax(InitialSettings)
    ensures InitialSettings.smsBank == InitialSettings.smsBankMax == 40
  {
  }

  /** A patch that leaves the bank fields alone keeps the bank bound. */
  lemma MergeKeepsBank(s: Settings, p: SettingsPatch)
    requires LeavesBankAlone(p)
    ensures Merge(s, p).smsBank == s.smsBank && Merge(s, p).smsBankMax == s.smsBankMax
    ensures BankWithinMax(s) ==> BankWithinMax(Merge(s, p))
  {
  }

  /** `set` itself does not enforce the bound: a patch can raise the bank
      above its maximum. */
  lemma SetDoesNotEnforceBank()
    ensures !BankWithinMax(Merge(InitialSettings, EmptyPatch.(smsBank := Some(41))))
  {
  }

  /** The store. Emits go to the shared log. */
  class Store {
    var settings: Settings
    const log: EmitLog

    constructor(log: EmitLog)
      ensures settings == InitialSettings && this.log == log
    {
      settings := InitialSettings;
      this.log := log;
    }

    /** `set(patch)`: spread the patch over the record, then emit (also for
        an empty patch). */
    method Set(patch: SettingsPatch)
      modifies this, log
      ensures settings == Merge(old(settings), patch)
      ensures log.events == old(log.events) + [SettingsEmit]
    {
      settings := Merge(settings, patch);
      log.Record(SettingsEmit);
    }

    /** Two `set` calls in a row leave the record a single composed patch
        would, with one emit each. */
    method SetTwice(p: SettingsPatch, q: SettingsPatch)
      modifies this, log
      ensures settings == Merge(old(settings), Compose(p, q))
      ensures log.events == old(log.events) + [SettingsEmit, SettingsEmit]
    {
      Set(p);
      Set(q);
      MergeCompose(old(settings), p, q);
    }
  }
}
