/**
 * The decibel sampling and statistics engine, `AudioManager`. The recorder, the audio
 * session and the run-loop timer are platform objects: the recorder is reduced to
 * whether one is set up (and whether it was told to record), its metering to the
 * `averagePower` argument of `Tick`, and the scheduled timers to a flag and a count.
 */
module Monitor {
  import opened Wrappers
  import Levels
  import Stats
  import opened Meter

  class AudioManager {
    /** `audioRecorder != nil`: setting up the recorder succeeded at least once. */
    var hasRecorder: bool
    /** Whether `record()` was the last of `record()`/`stop()` sent to the current recorder. */
    var recording: bool
    /** `timer != nil`: the reference holds the last timer scheduled. */
    var hasTimer: bool
    /**
     * Timers still scheduled that no reference points to any more: each `Start` while
     * `timer` was set overwrote it without invalidating it.
     */
    var orphanedTimers: nat

    /** `decibelValues`: the levels of the current session. */
    var history: seq<real>
    var decibels: real
    var avgDecibels: real
    var minimum: Option<real>
    var maximum: Option<real>

    /** The levels of the sessions already stopped, oldest first. */
    ghost var previous: seq<real>

    /** The statistics as a value. */
    ghost function Snapshot(): State
      reads this
    {
      State(previous, history, decibels, avgDecibels, minimum, maximum)
    }

    /** Timers scheduled and not invalidated; each one keeps calling `Tick` every 0.1 s. */
    ghost function ScheduledTimers(): nat
      reads this
    {
      orphanedTimers + if hasTimer then 1 else 0
    }

    ghost predicate Valid()
      reads this
    {
      && (recording ==> hasRecorder)
      && Consistent(Snapshot())
    }

    /**
     * `init()` followed by the recorder setup it triggers: `setupSucceeds` says whether
     * creating the recorder threw.
     */
    constructor (setupSucceeds: bool)
      ensures Valid()
      ensures hasRecorder == setupSucceeds && !recording
      ensures !hasTimer && orphanedTimers == 0 && ScheduledTimers() == 0
      ensures Snapshot() == Initial
    {
      hasRecorder := setupSucceeds;
      recording := false;
      hasTimer := false;
      orphanedTimers := 0;
      history := [];
      decibels := 0.0;
      avgDecibels := 0.0;
      minimum := None;
      maximum := None;
      previous := [];
      InitialConsistent();
    }

    /**
     * `setupRecorder()`: a successful setup installs a fresh recorder, which is not
     * recording yet; a failed one leaves `audioRecorder` as it was. No statistic changes.
     */
    method SetupRecorder(succeeds: bool)
      requires Valid()
      modifies this
      ensures Valid()
      ensures hasRecorder == (old(hasRecorder) || succeeds)
      ensures recording == (old(recording) && !succeeds)
      ensures hasTimer == old(hasTimer) && orphanedTimers == old(orphanedTimers)
      ensures Snapshot() == old(Snapshot())
    {
      if succeeds {
        hasRecorder := true;
        recording := false;
      }
    }

    /**
     * `startMonitoring()`: tells the recorder (if any) to record and schedules a new
     * repeating timer. The previous timer is overwritten without being invalidated, so
     * it stays scheduled. The history and the statistics are untouched.
     */
    method Start()
      requires Valid()
      modifies this
      ensures Valid()
      ensures recording == (old(recording) || hasRecorder)
      ensures hasRecorder == old(hasRecorder)
      ensures hasTimer && orphanedTimers == old(orphanedTimers) + (if old(hasTimer) then 1 else 0)
      ensures ScheduledTimers() == old(ScheduledTimers()) + 1
      ensures Snapshot() == old(Snapshot())
    {
      if hasRecorder {
        recording := true;
      }
      if hasTimer {
        orphanedTimers := orphanedTimers + 1;
      }
      hasTimer := true;
    }

    /**
     * `stopMonitoring()`: stops the recorder (if any), invalidates the timer the
     * reference points to (if any), clears the reference and empties the history.
     * `decibels`, `avgDecibels`, `minimum` and `maximum` keep their values, so the
     * extremes carry over into the next session; timers orphaned by earlier starts
     * stay scheduled.
     */
    method Stop()
      requires Valid()
      modifies this
      ensures Valid()
      ensures !recording && hasRecorder == old(hasRecorder)
      ensures !hasTimer && orphanedTimers == old(orphanedTimers)
      ensures ScheduledTimers() == old(orphanedTimers)
      ensures Snapshot() == Close(old(Snapshot()))
      ensures history == []
    {
      if hasRecorder {
        recording := false;
      }
      hasTimer := false;
      CloseKeeps(Snapshot());
      previous := previous + history;
      history := [];
    }

    /**
     * `updateDecibels()`, run on each timer firing. Without a recorder the optional
     * chain yields nil and nothing changes. Otherwise `averagePower` is what the
     * recorder's meter reports for channel 0; it is rescaled to a level and published.
     */
    method Tick(averagePower: real)
      requires Valid()
      modifies this
      ensures Valid()
      ensures hasRecorder == old(hasRecorder) && recording == old(recording)
      ensures hasTimer == old(hasTimer) && orphanedTimers == old(orphanedTimers)
      ensures !hasRecorder ==> Snapshot() == old(Snapshot())
      ensures hasRecorder ==> Snapshot() == Record(old(Snapshot()), Levels.Level(averagePower))
    {
      if hasRecorder {
        var level := Levels.Rescaled(averagePower);
        if level < 0.0 {
          level := 0.0;
        }
        RecordKeeps(Snapshot(), level);
        Publish(level);
      }
    }

    /**
     * The rest of `updateDecibels()` once the level is known: the level is appended to
     * the history, the average is recomputed over the history and the extremes are
     * updated. `Meter.Record` is its specification on values, and `Meter.RecordKeeps`
     * what is proved about it.
     */
    method Publish(level: real)
      modifies this
      ensures hasRecorder == old(hasRecorder) && recording == old(recording)
      ensures hasTimer == old(hasTimer) && orphanedTimers == old(orphanedTimers)
      ensures Snapshot() == Record(old(Snapshot()), level)
    {
      decibels := level;
      history := history + [decibels];
      avgDecibels := Stats.Mean(history);
      if minimum.None? || decibels < minimum.value {
        minimum := Some(decibels);
      }
      if maximum.None? || decibels > maximum.value {
        maximum := Some(decibels);
      }
    }
  }

  /**
   * Starting twice and stopping once leaves one timer scheduled: the first one, whose
   * reference the second start overwrote.
   */
  method RestartLeaksTimer() returns (scheduled: nat, referenced: bool)
    ensures scheduled == 1 && !referenced
  {
    var m := new AudioManager(true);
    m.Start();
    m.Start();
    m.Stop();
    scheduled, referenced := m.orphanedTimers, m.hasTimer;
  }

  /**
   * Two sessions: readings of -20 and -40 (levels 90 and 60), a stop, then one reading
   * of -70 (level 15). The extremes span both sessions; the average covers the second
   * one only, and the stop kept the first session's average until then.
   */
  method TwoSessions() returns (low: Option<real>, high: Option<real>, avgAfterStop: real, avg: real)
    ensures low == Some(15.0) && high == Some(90.0)
    ensures avgAfterStop == 75.0 && avg == 15.0
  {
    var m := new AudioManager(true);
    m.Start();
    m.Tick(-20.0);
    m.Tick(-40.0);
    m.Stop();
    avgAfterStop := m.avgDecibels;
    m.Start();
    m.Tick(-70.0);
    low, high, avg := m.minimum, m.maximum, m.avgDecibels;
  }
}
