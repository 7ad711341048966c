/**
 * The compass view model (viewModel/CompassViewModel.kt) as an event-driven
 * state machine.
 *
 * The coroutine machinery is reduced to its observable effect: every callback
 * is one atomic event applied in turn. Two pieces of bookkeeping stand for
 * what the flow operators keep implicitly:
 *  - sensor subscriptions are numbered 1, 2, ...; `flatMapLatest` starts a new
 *    one on every delay the settings store emits and cancels the previous one,
 *    so only readings of the newest subscription are delivered;
 *  - location jobs are numbered 0, 1, ...; a job delivers fixes from the moment
 *    it is launched until it is cancelled.
 * `.catch` sits after `flatMapLatest`, so a failure ends the whole orientation
 * chain: no later delay restarts it.
 */
module ViewModel {
  import opened Wrappers
  import opened CompassStateModel

  /** A launched location-collection job. */
  type JobId = nat

  /** The four location fields whose display the settings switch on and off. */
  datatype DisplayFlag = Latitude | Longitude | Altitude | Address

  /** The whole state of the view model, as a value. */
  datatype Snapshot = Snapshot(
    compassState: CompassState,
    latitudeEnabled: bool,
    longitudeEnabled: bool,
    altitudeEnabled: bool,
    addressEnabled: bool,
    locationUpdatesJob: Option<JobId>,
    launchedJobs: nat,
    cancelledJobs: set<JobId>,
    sensorDelay: Option<int>,
    subscription: nat,
    orientationAlive: bool)
  {
    /**
     * Bookkeeping invariant: only launched jobs are held or cancelled, and a
     * delay is recorded exactly when some subscription has been started.
     */
    predicate Valid() {
      (forall job :: job in cancelledJobs ==> job < launchedJobs) &&
      (locationUpdatesJob.Some? ==> locationUpdatesJob.value < launchedJobs) &&
      (sensorDelay.Some? <==> subscription >= 1)
    }

    /** Readings tagged with `sub` reach the state: the chain is alive and `sub` is the newest subscription. */
    predicate Delivers(sub: nat) {
      orientationAlive && 1 <= sub == subscription
    }

    /** Location job `job` has been launched and not cancelled. */
    predicate JobLive(job: JobId) {
      job < launchedJobs && job !in cancelledJobs
    }

    /** The current value of one display flag. */
    function Flag(flag: DisplayFlag): bool {
      match flag
      case Latitude => latitudeEnabled
      case Longitude => longitudeEnabled
      case Altitude => altitudeEnabled
      case Address => addressEnabled
    }
  }

  /** One callback of the view model. */
  datatype Event =
    | OrientationReading(sub: nat, azimuth: real, magneticField: real)
    | LocationFix(job: JobId, location: Location)
    | SensorDelayEmitted(delay: int)
    | SensorChainFailed
    | FlagEmitted(flag: DisplayFlag, enabled: bool)
    | StartLocation
    | StopLocation

  /** The effect of one event on the state. */
  function Step(s: Snapshot, e: Event): Snapshot {
    match e
    case OrientationReading(sub, azimuth, magneticField) =>
      if s.Delivers(sub)
      then s.(compassState := s.compassState.(azimuth := azimuth, magneticField := magneticField))
      else s
    case LocationFix(job, location) =>
      if s.JobLive(job) then s.(compassState := s.compassState.(location := location)) else s
    case SensorDelayEmitted(delay) =>
      if s.orientationAlive then s.(sensorDelay := Some(delay), subscription := s.subscription + 1) else s
    case SensorChainFailed =>
      s.(orientationAlive := false)
    case FlagEmitted(flag, enabled) =>
      (match flag
       case Latitude => s.(latitudeEnabled := enabled)
       case Longitude => s.(longitudeEnabled := enabled)
       case Altitude => s.(altitudeEnabled := enabled)
       case Address => s.(addressEnabled := enabled))
    case StartLocation =>
      s.(locationUpdatesJob := Some(s.launchedJobs), launchedJobs := s.launchedJobs + 1)
    case StopLocation =>
      s.(cancelledJobs := match s.locationUpdatesJob
                          case Some(job) => s.cancelledJobs + {job}
                          case None => s.cancelledJobs,
         locationUpdatesJob := None,
         compassState := s.compassState.(location := Location()))
  }

  /** The effect of a sequence of events, applied in order. */
  function Run(s: Snapshot, events: seq<Event>): Snapshot
    decreases |events|
  {
    if events == [] then s else Run(Step(s, events[0]), events[1..])
  }

  /** The state right after construction: defaults everywhere, then one location job started. */
  function Initial(): Snapshot {
    var blank := Snapshot(CompassState(), true, true, true, true, None, 0, {}, None, 0, true);
    Step(blank, StartLocation)
  }

  /** The value a display flag holds after `events`, read from the last event that sets it. */
  function LastFlagValue(events: seq<Event>, flag: DisplayFlag, initial: bool): bool
    decreases |events|
  {
    if events == [] then initial
    else
      var last := events[|events| - 1];
      if last.FlagEmitted? && last.flag == flag then last.enabled
      else LastFlagValue(events[..|events| - 1], flag, initial)
  }

  /** Every event keeps the bookkeeping invariant. */
  lemma StepValid(s: Snapshot, e: Event)
    requires s.Valid()
    ensures Step(s, e).Valid()
  {
  }

  /** Every sequence of events keeps the bookkeeping invariant. */
  lemma {:induction false} RunValid(s: Snapshot, events: seq<Event>)
    requires s.Valid()
    ensures Run(s, events).Valid()
    decreases |events|
  {
    if events != [] {
      StepValid(s, events[0]);
      RunValid(Step(s, events[0]), events[1..]);
    }
  }

  /** After construction the state is the default record, every flag is on and a location job is held. */
  lemma InitialState()
    ensures Initial().compassState == CompassState()
    ensures Initial().compassState.Direction() == "N"
    ensures forall flag :: Initial().Flag(flag)
    ensures Initial().locationUpdatesJob == Some(0) && Initial().JobLive(0)
    ensures Initial().orientationAlive && Initial().subscription == 0
    ensures Initial().Valid()
  {
  }

  /** Running two event sequences one after the other is running their concatenation. */
  lemma {:induction false} RunAppend(s: Snapshot, a: seq<Event>, b: seq<Event>)
    ensures Run(s, a + b) == Run(Run(s, a), b)
    decreases |a|
  {
    if a != [] {
      assert (a + b)[0] == a[0];
      assert (a + b)[1..] == a[1..] + b;
      RunAppend(Step(s, a[0]), a[1..], b);
    } else {
      assert a + b == b;
    }
  }

  /** One event never lowers the subscription number or the launched jobs, never undoes a cancellation and never revives the chain. */
  lemma StepMonotone(s: Snapshot, e: Event)
    ensures Step(s, e).subscription >= s.subscription
    ensures Step(s, e).launchedJobs >= s.launchedJobs
    ensures Step(s, e).cancelledJobs >= s.cancelledJobs
    ensures !s.orientationAlive ==> !Step(s, e).orientationAlive
  {
  }

  /** Subscription numbers and launched jobs only grow, cancellations are permanent, and a dead chain stays dead. */
  lemma {:induction false} RunMonotone(s: Snapshot, events: seq<Event>)
    ensures Run(s, events).subscription >= s.subscription
    ensures Run(s, events).launchedJobs >= s.launchedJobs
    ensures Run(s, events).cancelledJobs >= s.cancelledJobs
    ensures !s.orientationAlive ==> !Run(s, events).orientationAlive
    decreases |events|
  {
    if events != [] {
      StepMonotone(s, events[0]);
      RunMonotone(Step(s, events[0]), events[1..]);
    }
  }

  /**
   * A reading from a subscription that a later delay has superseded never
   * reaches the state: wherever it arrives, the outcome is as if it had not.
   */
  lemma SupersededReadingIgnored(s: Snapshot, before: seq<Event>, sub: nat, azimuth: real, magneticField: real, after: seq<Event>)
    requires sub < s.subscription
    ensures Run(s, before + [OrientationReading(sub, azimuth, magneticField)] + after) == Run(s, before + after)
  {
    var reading := OrientationReading(sub, azimuth, magneticField);
    RunAppend(s, before + [reading], after);
    RunAppend(s, before, [reading]);
    RunAppend(s, before, after);
    RunMonotone(s, before);
  }

  /** A new delay supersedes the current subscription: from then on, its readings are ignored. */
  lemma NewDelaySupersedes(s: Snapshot, delay: int, later: seq<Event>, azimuth: real, magneticField: real)
    requires s.orientationAlive && s.subscription >= 1
    ensures var t := Run(Step(s, SensorDelayEmitted(delay)), later);
      Step(t, OrientationReading(s.subscription, azimuth, magneticField)) == t
  {
    RunMonotone(Step(s, SensorDelayEmitted(delay)), later);
  }

  /**
   * After the orientation chain has failed, heading and field strength keep
   * their last values whatever follows, later delays included, and the chain
   * never restarts.
   */
  lemma {:induction false} FailureIsFinal(s: Snapshot, events: seq<Event>)
    requires !s.orientationAlive
    ensures Run(s, events).compassState.azimuth == s.compassState.azimuth
    ensures Run(s, events).compassState.magneticField == s.compassState.magneticField
    ensures Run(s, events).subscription == s.subscription
    ensures Run(s, events).sensorDelay == s.sensorDelay
    ensures !Run(s, events).orientationAlive
    decreases |events|
  {
    if events != [] {
      FailureIsFinal(Step(s, events[0]), events[1..]);
    }
  }

  /** One event sets a flag only when it is that flag's own emission. */
  lemma StepFlag(s: Snapshot, e: Event, flag: DisplayFlag)
    ensures Step(s, e).Flag(flag) == if e.FlagEmitted? && e.flag == flag then e.enabled else s.Flag(flag)
  {
  }

  /** Each display flag holds the value its own setting emitted last, or its earlier value if none was emitted. */
  lemma {:induction false} LatestFlagWins(s: Snapshot, events: seq<Event>, flag: DisplayFlag)
    ensures Run(s, events).Flag(flag) == LastFlagValue(events, flag, s.Flag(flag))
    decreases |events|
  {
    if events != [] {
      var n := |events| - 1;
      var init := events[..n];
      var last := events[n];
      assert events == init + [last];
      RunAppend(s, init, [last]);
      var t := Run(s, init);
      assert Run(t, [last]) == Step(t, last) by {
        assert [last][1..] == [];
      }
      StepFlag(t, last, flag);
      LatestFlagWins(s, init, flag);
    }
  }

  /**
   * Orientation readings never touch the location, location fixes never touch
   * heading or field strength, and flag changes touch nothing but their flag.
   */
  lemma StepSeparation(s: Snapshot, e: Event)
    ensures e.OrientationReading? ==> Step(s, e).compassState.location == s.compassState.location
    ensures e.LocationFix? ==>
      Step(s, e).compassState.azimuth == s.compassState.azimuth &&
      Step(s, e).compassState.magneticField == s.compassState.magneticField
    ensures e.FlagEmitted? ==>
      Step(s, e).compassState == s.compassState &&
      forall flag :: flag != e.flag ==> Step(s, e).Flag(flag) == s.Flag(flag)
    ensures e.FlagEmitted? ==> Step(s, e).Flag(e.flag) == e.enabled
  {
  }

  /** A cancelled location job stays silent: none of its fixes ever changes the state again. */
  lemma CancelledJobSilent(s: Snapshot, job: JobId, later: seq<Event>, location: Location)
    requires s.locationUpdatesJob == Some(job)
    ensures var t := Run(Step(s, StopLocation), later);
      Step(t, LocationFix(job, location)) == t
  {
    RunMonotone(Step(s, StopLocation), later);
  }

  /**
   * Stopping clears the location to the default record and keeps heading and
   * field strength; starting twice and then stopping leaves the first job
   * running, and its fixes still overwrite the location.
   */
  lemma RestartLeaksJob(s: Snapshot, location: Location)
    requires s.Valid()
    ensures var t := Run(s, [StartLocation, StartLocation, StopLocation]);
      t.compassState == s.compassState.(location := Location()) &&
      t.locationUpdatesJob == None &&
      t.JobLive(s.launchedJobs) &&
      Step(t, LocationFix(s.launchedJobs, location)).compassState.location == location
  {
  }

  /**
   * The app's own sequence: construction starts job 0, the activity starts
   * another and a stop follows. Job 0 is still running afterwards and its
   * fixes overwrite the location that the stop has just reset.
   */
  lemma ConstructionJobOutlivesStop(location: Location)
    ensures var t := Run(Initial(), [StartLocation, StopLocation]);
      t.compassState.location == Location() &&
      t.locationUpdatesJob == None &&
      t.JobLive(0) &&
      Step(t, LocationFix(0, location)).compassState.location == location
  {
  }

  /**
   * The view model object. Each method is one callback; its contract lists the
   * fields it changes, and its effect is the `Step` of the matching event.
   */
  class CompassViewModel {
    var compassState: CompassState
    var latitudeEnabled: bool
    var longitudeEnabled: bool
    var altitudeEnabled: bool
    var addressEnabled: bool
    var locationUpdatesJob: Option<JobId>
    /** Location jobs launched so far; they are numbered 0 .. launchedJobs - 1. */
    var launchedJobs: nat
    /** Location jobs that have been cancelled. */
    var cancelledJobs: set<JobId>
    /** The delay the newest sensor subscription was started with, once the store has emitted one. */
    var sensorDelay: Option<int>
    /** The number of the newest sensor subscription; 0 while none has been started. */
    var subscription: nat
    /** False once a failure has ended the orientation chain. */
    var orientationAlive: bool

    ghost function Model(): Snapshot
      reads this
    {
      Snapshot(compassState, latitudeEnabled, longitudeEnabled, altitudeEnabled, addressEnabled,
               locationUpdatesJob, launchedJobs, cancelledJobs, sensorDelay, subscription, orientationAlive)
    }

    ghost predicate Valid()
      reads this
    {
      Model().Valid()
    }

    /** Default state, all flags on, orientation chain waiting for its first delay, location updates started. */
    constructor ()
      ensures Valid()
      ensures Model() == Initial()
      ensures compassState == CompassState()
      ensures latitudeEnabled && longitudeEnabled && altitudeEnabled && addressEnabled
      ensures locationUpdatesJob.Some?
    {
      compassState := CompassState();
      latitudeEnabled := true;
      longitudeEnabled := true;
      altitudeEnabled := true;
      addressEnabled := true;
      locationUpdatesJob := None;
      launchedJobs := 0;
      cancelledJobs := {};
      sensorDelay := None;
      subscription := 0;
      orientationAlive := true;
      new;
      StartLocationUpdates();
    }

    /** A reading of subscription `sub` replaces heading and field strength when that subscription is live. */
    method OnOrientation(sub: nat, azimuth: real, magneticField: real)
      requires Valid()
      modifies this
      ensures Valid()
      ensures Model() == Step(old(Model()), OrientationReading(sub, azimuth, magneticField))
      ensures old(Model().Delivers(sub)) ==>
        Model() == old(Model()).(compassState := old(compassState).(azimuth := azimuth, magneticField := magneticField))
      ensures !old(Model().Delivers(sub)) ==> Model() == old(Model())
    {
      if orientationAlive && 1 <= sub == subscription {
        compassState := compassState.(azimuth := azimuth, magneticField := magneticField);
      }
    }

    /** A fix of location job `job` replaces the location when that job is still running. */
    method OnLocation(job: JobId, location: Location)
      requires Valid()
      modifies this
      ensures Valid()
      ensures Model() == Step(old(Model()), LocationFix(job, location))
      ensures old(Model().JobLive(job)) ==> Model() == old(Model()).(compassState := old(compassState).(location := location))
      ensures !old(Model().JobLive(job)) ==> Model() == old(Model())
    {
      if job < launchedJobs && job !in cancelledJobs {
        compassState := compassState.(location := location);
      }
    }

    /** The store emitted `delay`: a live chain cancels its subscription and starts the next one. */
    method OnSensorDelay(delay: int)
      requires Valid()
      modifies this
      ensures Valid()
      ensures Model() == Step(old(Model()), SensorDelayEmitted(delay))
      ensures old(orientationAlive) ==>
        Model() == old(Model()).(sensorDelay := Some(delay), subscription := old(subscription) + 1)
      ensures !old(orientationAlive) ==> Model() == old(Model())
    {
      if orientationAlive {
        sensorDelay := Some(delay);
        subscription := subscription + 1;
      }
    }

    /** A failure in the orientation chain is swallowed: the chain ends and the state keeps its values. */
    method OnSensorFailure()
      requires Valid()
      modifies this
      ensures Valid()
      ensures Model() == Step(old(Model()), SensorChainFailed)
      ensures Model() == old(Model()).(orientationAlive := false)
    {
      orientationAlive := false;
    }

    /** A display setting emitted `enabled`: its flag takes the value. */
    method OnFlag(flag: DisplayFlag, enabled: bool)
      requires Valid()
      modifies this
      ensures Valid()
      ensures Model() == Step(old(Model()), FlagEmitted(flag, enabled))
      ensures Model().Flag(flag) == enabled
      ensures forall other :: other != flag ==> Model().Flag(other) == old(Model().Flag(other))
      ensures compassState == old(compassState) && locationUpdatesJob == old(locationUpdatesJob)
    {
      match flag
      case Latitude => latitudeEnabled := enabled;
      case Longitude => longitudeEnabled := enabled;
      case Altitude => altitudeEnabled := enabled;
      case Address => addressEnabled := enabled;
    }

    /** Launches a new location job and holds it, overwriting (not cancelling) any job held before. */
    method StartLocationUpdates()
      requires Valid()
      modifies this
      ensures Valid()
      ensures Model() == Step(old(Model()), StartLocation)
      ensures Model() == old(Model()).(locationUpdatesJob := Some(old(launchedJobs)), launchedJobs := old(launchedJobs) + 1)
    {
      locationUpdatesJob := Some(launchedJobs);
      launchedJobs := launchedJobs + 1;
    }

    /** Cancels the held job, drops the handle and resets the location; heading and field strength stay. */
    method StopLocationUpdates()
      requires Valid()
      modifies this
      ensures Valid()
      ensures Model() == Step(old(Model()), StopLocation)
      ensures locationUpdatesJob == None
      ensures cancelledJobs == old(cancelledJobs) + (if old(locationUpdatesJob).Some? then {old(locationUpdatesJob).value} else {})
      ensures compassState == old(compassState).(location := Location())
      ensures Model() == old(Model()).(locationUpdatesJob := None, cancelledJobs := cancelledJobs, compassState := compassState)
    {
      if locationUpdatesJob.Some? {
        cancelledJobs := cancelledJobs + {locationUpdatesJob.value};
      }
      locationUpdatesJob := None;
      compassState := compassState.(location := Location());
    }
  }
}
