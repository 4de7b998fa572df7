/**
 * Triggers of the job scheduler and the fixed mapping from a task's schedule
 * frequency to a trigger (`_create_trigger_from_schedule`).
 */
module Triggers {
  import opened Wrappers

  /**
   * `Interval` stands for an interval trigger with its period in seconds. `Cron` stands
   * for a cron trigger: an optional day of week (absent means every day), the hour and
   * the minute. A cron trigger built from `hour=2` alone has minute 0, because the
   * fields below the least significant given field default to their minimum.
   */
  datatype Trigger =
    | Interval(seconds: nat)
    | Cron(dayOfWeek: Option<string>, hour: nat, minute: nat)

  const SecondsPerHour: nat := 3600

  predicate IsSupported(frequency: string)
  {
    frequency == "hourly" || frequency == "daily" || frequency == "weekly"
  }

  /** The trigger for a (lower-cased) schedule frequency, or `None` when it is not supported. */
  function TriggerFor(frequency: string): (r: Option<Trigger>)
    ensures r.Some? <==> IsSupported(frequency)
    ensures frequency == "hourly" ==> r == Some(Interval(SecondsPerHour))
    ensures frequency == "daily" ==> r == Some(Cron(None, 2, 0))
    ensures frequency == "weekly" ==> r == Some(Cron(Some("mon"), 2, 0))
  {
    if frequency == "hourly" then Some(Interval(SecondsPerHour))
    else if frequency == "daily" then Some(Cron(None, 2, 0))
    else if frequency == "weekly" then Some(Cron(Some("mon"), 2, 0))
    else None
  }

  /** Different supported frequencies never map to the same trigger. */
  lemma TriggerForInjective(f: string, g: string)
    requires TriggerFor(f).Some? && TriggerFor(f) == TriggerFor(g)
    ensures f == g
  {
  }

  /**
   * The reschedule test of `_schedule_tasks`: a change of trigger kind, a different
   * interval, or a cron trigger whose fields differ. It holds exactly when the two
   * triggers differ.
   */
  function NeedsReschedule(current: Trigger, next: Trigger): (r: bool)
    ensures r <==> current != next
  {
    match (current, next)
    case (Interval(p), Interval(q)) => p != q
    case (Cron(d1, h1, m1), Cron(d2, h2, m2)) => d1 != d2 || h1 != h2 || m1 != m2
    case _ => true
  }
}
