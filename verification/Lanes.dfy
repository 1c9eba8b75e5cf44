/**
 * The lanes a worker needs before it may apply: one of the user's slots, the browser profile if
 * there is one, and the portal. Each lane is a lease, taken here as exclusive (Leases says when).
 */
module Lanes {
  import opened Basics
  import RetryPolicy

  type Worker = nat

  datatype Lane = UserSlot(user: nat, slot: nat) | Profile(profile: nat) | PortalLane(user: nat, portal: string)

  /** What a job needs; limit is how many of the user's slots its worker may try. */
  datatype Need = Need(user: nat, limit: nat, profile: Option<nat>, portal: string)

  /** One lease call, or none. */
  datatype Call = Nothing | Takes(lane: Lane) | Frees(lane: Lane)

  /**
   * Threw: a call failed while the job held these lanes, and nobody is left to release them. As
   * long as the process lives their timers go on renewing them, except that of a lane being
   * released, which is stopped first; the lanes in `expiring` are in the job's name without a timer.
   */
  datatype Stage =
    | Trying(slot: nat)
    | WantsProfile(slot: nat)
    | WantsPortal(slot: nat)
    | Running(slot: nat)
    | DropsPortal(slot: nat)
    | DropsProfile(slot: nat)
    | DropsSlot(slot: nat)
    | Out(granted: bool)
    | Threw(slot: nat, held: set<Lane>, call: Call, expiring: set<Lane>)

  datatype Job = Job(need: Need, stage: Stage, ran: bool)

  datatype State = State(lanes: map<Lane, Worker>, jobs: map<Worker, Job>)

  /** Throw: the call at hand fails for the caller; Redis may have executed it all the same. */
  datatype Step = Arrive(w: Worker, need: Need) | Go(w: Worker) | Throw(w: Worker, executed: bool) | Expire(w: Worker, lane: Lane)

  function NeedOf(user: nat, configured: int, profile: Option<nat>, portal: string): Need {
    Need(user, RetryPolicy.EffectiveConcurrency(configured, profile.Some?), profile, portal)
  }

  function Slots(job: Job): set<Lane> {
    if job.stage.Trying? || job.stage.Out? || job.stage.Threw? then {} else {UserSlot(job.need.user, job.stage.slot)}
  }

  function Profiles(job: Job): set<Lane> {
    if job.need.profile.Some? && (job.stage.WantsPortal? || job.stage.Running? || job.stage.DropsPortal? || job.stage.DropsProfile?)
    then {Profile(job.need.profile.value)} else {}
  }

  function Portals(job: Job): set<Lane> {
    if job.stage.Running? || job.stage.DropsPortal? then {PortalLane(job.need.user, job.need.portal)} else {}
  }

  /** The lanes a thrown job still has timers for. */
  function Renewed(stage: Stage): set<Lane>
    requires stage.Threw?
  {
    stage.held - if stage.call.Frees? then {stage.call.lane} else {}
  }

  /** The lanes a job has at its stage. */
  function Has(job: Job): set<Lane> {
    if job.stage.Threw? then Renewed(job.stage) + job.stage.expiring
    else Slots(job) + Profiles(job) + Portals(job)
  }

  function At(job: Job, stage: Stage): Job {
    job.(stage := stage)
  }

  /** The lease call a job makes next, given the lanes that are taken, and where that leads it. */
  function Next(lanes: set<Lane>, job: Job): (Job, Call) {
    var need := job.need;
    match job.stage
    case Trying(k) =>
      if k >= need.limit then (At(job, Out(false)), Nothing)
      else if UserSlot(need.user, k) in lanes then (At(job, Trying(k + 1)), Nothing)
      else (At(job, WantsProfile(k)), Takes(UserSlot(need.user, k)))
    case WantsProfile(k) =>
      if need.profile.None? then (At(job, WantsPortal(k)), Nothing)
      else if Profile(need.profile.value) in lanes then (At(job, DropsSlot(k)), Nothing)
      else (At(job, WantsPortal(k)), Takes(Profile(need.profile.value)))
    case WantsPortal(k) =>
      if PortalLane(need.user, need.portal) in lanes then (At(job, DropsProfile(k)), Nothing)
      else (Job(need, Running(k), true), Takes(PortalLane(need.user, need.portal)))
    case Running(k) => (At(job, DropsPortal(k)), Nothing)
    case DropsPortal(k) => (At(job, DropsProfile(k)), Frees(PortalLane(need.user, need.portal)))
    case DropsProfile(k) =>
      if need.profile.None? then (At(job, DropsSlot(k)), Nothing)
      else (At(job, DropsSlot(k)), Frees(Profile(need.profile.value)))
    case DropsSlot(k) => (At(job, Out(job.ran)), Frees(UserSlot(need.user, k)))
    case Out(_) => (job, Nothing)
    case Threw(_, _, _, _) => (job, Nothing)
  }

  /** The call a job makes to Redis at its stage, whatever the answer will be. */
  function CallAt(job: Job): Call {
    var need := job.need;
    match job.stage
    case Trying(k) => if k < need.limit then Takes(UserSlot(need.user, k)) else Nothing
    case WantsProfile(_) => if need.profile.Some? then Takes(Profile(need.profile.value)) else Nothing
    case WantsPortal(_) => Takes(PortalLane(need.user, need.portal))
    case DropsPortal(_) => Frees(PortalLane(need.user, need.portal))
    case DropsProfile(_) => if need.profile.Some? then Frees(Profile(need.profile.value)) else Nothing
    case DropsSlot(k) => Frees(UserSlot(need.user, k))
    case _ => Nothing
  }

  /** The job after its call threw, and what the call did to the table. */
  function Thrown(lanes: set<Lane>, job: Job, executed: bool): (Job, Call)
    requires !CallAt(job).Nothing?
  {
    var call := CallAt(job);
    var effect := if !executed || (call.Takes? && call.lane in lanes) then Nothing else call;
    var expiring := if effect.Takes? || (call.Frees? && effect.Nothing?) then {call.lane} else {};
    (At(job, Threw(job.stage.slot, Has(job), call, expiring)), effect)
  }

  function Expired(job: Job, lane: Lane): (Job, Call)
    requires job.stage.Threw?
  {
    (At(job, job.stage.(expiring := job.stage.expiring - {lane})), Frees(lane))
  }

  function Act(lanes: map<Lane, Worker>, w: Worker, call: Call): map<Lane, Worker> {
    match call
    case Nothing => lanes
    case Takes(lane) => lanes[lane := w]
    case Frees(lane) => if lane in lanes && lanes[lane] == w then lanes - {lane} else lanes
  }

  function Put(s: State, w: Worker, change: (Job, Call)): State {
    State(Act(s.lanes, w, change.1), s.jobs[w := change.0])
  }

  predicate Enabled(s: State, step: Step) {
    match step
    case Arrive(w, _) => w !in s.jobs
    case Go(w) => w in s.jobs
    case Throw(w, _) => w in s.jobs && !CallAt(s.jobs[w]).Nothing?
    case Expire(w, lane) => w in s.jobs && s.jobs[w].stage.Threw? && lane in s.jobs[w].stage.expiring
  }

  function Apply(s: State, step: Step): State
    requires Enabled(s, step)
  {
    match step
    case Arrive(w, need) => s.(jobs := s.jobs[w := Job(need, Trying(0), false)])
    case Go(w) => Put(s, w, Next(s.lanes.Keys, s.jobs[w]))
    case Throw(w, executed) => Put(s, w, Thrown(s.lanes.Keys, s.jobs[w], executed))
    case Expire(w, lane) => Put(s, w, Expired(s.jobs[w], lane))
  }

  function Run(steps: seq<Step>): Option<State>
    decreases |steps|
  {
    if steps == [] then Some(State(map[], map[]))
    else
      match Run(steps[..|steps| - 1])
      case None => None
      case Some(mid) => if Enabled(mid, steps[|steps| - 1]) then Some(Apply(mid, steps[|steps| - 1])) else None
  }

  // ------------------------------------------------------------- invariant

  /** Exactly the lanes a job has are in its name. */
  ghost predicate Tidy(lanes: map<Lane, Worker>, w: Worker, job: Job) {
    forall lane :: lane in Has(job) <==> lane in lanes && lanes[lane] == w
  }

  /** The job has ended, and lanes are renewed in its name. */
  predicate Leaks(job: Job) {
    job.stage.Threw? && Renewed(job.stage) != {}
  }

  /** Among what is left behind is always the slot. */
  predicate LeaksSlot(job: Job)
    requires job.stage.Threw?
  {
    job.stage.slot < job.need.limit && UserSlot(job.need.user, job.stage.slot) in Renewed(job.stage)
  }

  predicate Sound(job: Job) {
    && (!job.stage.Out? && !job.stage.Threw? && !job.stage.Trying? ==> job.stage.slot < job.need.limit)
    && (job.stage.Threw? ==> job.stage.expiring !! Renewed(job.stage))
    && (Leaks(job) ==> LeaksSlot(job))
    && (job.stage.Out? ==> job.stage.granted == job.ran)
    && (job.stage.Running? || job.stage.DropsPortal? ==> job.ran)
    && (job.stage.Trying? || job.stage.WantsProfile? || job.stage.WantsPortal? ==> !job.ran)
  }

  ghost predicate Inv(s: State) {
    && (forall w :: w in s.jobs ==> Tidy(s.lanes, w, s.jobs[w]) && Sound(s.jobs[w]))
    && (forall lane :: lane in s.lanes ==> s.lanes[lane] in s.jobs)
  }

  ghost predicate Fits(lanes: set<Lane>, job: Job, next: Job, call: Call) {
    match call
    case Nothing => Has(next) == Has(job)
    case Takes(lane) => lane !in lanes && Has(next) == Has(job) + {lane}
    case Frees(lane) => lane in Has(job) && Has(next) == Has(job) - {lane}
  }

  /** A job takes only free lanes, gives up only its own, and has exactly the difference afterwards. */
  lemma NextFits(lanes: set<Lane>, job: Job)
    requires Sound(job)
    ensures var (next, call) := Next(lanes, job);
            && Sound(next) && next.need == job.need
            && Fits(lanes, job, next, call)
  {
  }

  lemma ActKeepsOwn(lanes: map<Lane, Worker>, w: Worker, job: Job, next: Job, call: Call)
    requires Tidy(lanes, w, job) && Fits(lanes.Keys, job, next, call)
    ensures Tidy(Act(lanes, w, call), w, next)
  {
  }

  lemma ActKeepsOther(lanes: map<Lane, Worker>, w: Worker, job: Job, next: Job, call: Call, v: Worker, other: Job)
    requires Tidy(lanes, v, other) && v != w && Fits(lanes.Keys, job, next, call)
    ensures Tidy(Act(lanes, w, call), v, other)
  {
  }

  lemma ThrownFits(lanes: set<Lane>, job: Job, executed: bool)
    requires Sound(job) && Has(job) <= lanes && !CallAt(job).Nothing?
    ensures var (next, effect) := Thrown(lanes, job, executed);
            && Sound(next) && next.need == job.need
            && Fits(lanes, job, next, effect)
  {
  }

  lemma ExpiredFits(lanes: set<Lane>, job: Job, lane: Lane)
    requires Sound(job) && job.stage.Threw? && lane in job.stage.expiring
    ensures var (next, effect) := Expired(job, lane);
            && Sound(next) && next.need == job.need
            && Fits(lanes, job, next, effect)
  {
  }

  lemma PutKeeps(s: State, w: Worker, change: (Job, Call))
    requires Inv(s) && w in s.jobs && Sound(change.0) && Fits(s.lanes.Keys, s.jobs[w], change.0, change.1)
    ensures Inv(Put(s, w, change))
  {
    assert Tidy(s.lanes, w, s.jobs[w]);
    forall v | v in s.jobs
      ensures Tidy(Put(s, w, change).lanes, v, Put(s, w, change).jobs[v]) && Sound(Put(s, w, change).jobs[v])
    {
      if v != w {
        ActKeepsOther(s.lanes, w, s.jobs[w], change.0, change.1, v, s.jobs[v]);
      } else {
        ActKeepsOwn(s.lanes, w, s.jobs[w], change.0, change.1);
      }
    }
  }

  lemma StepKeeps(s: State, step: Step)
    requires Inv(s) && Enabled(s, step)
    ensures Inv(Apply(s, step))
  {
    match step
    case Arrive(w, need) =>
      assert Has(Job(need, Trying(0), false)) == {};
    case Go(w) =>
      NextFits(s.lanes.Keys, s.jobs[w]);
      PutKeeps(s, w, Next(s.lanes.Keys, s.jobs[w]));
    case Throw(w, executed) =>
      assert Tidy(s.lanes, w, s.jobs[w]);
      ThrownFits(s.lanes.Keys, s.jobs[w], executed);
      PutKeeps(s, w, Thrown(s.lanes.Keys, s.jobs[w], executed));
    case Expire(w, lane) =>
      ExpiredFits(s.lanes.Keys, s.jobs[w], lane);
      PutKeeps(s, w, Expired(s.jobs[w], lane));
  }

  lemma {:induction false} RunKeeps(steps: seq<Step>)
    requires Run(steps).Some?
    ensures Inv(Run(steps).value)
    decreases |steps|
  {
    if steps != [] {
      RunKeeps(steps[..|steps| - 1]);
      StepKeeps(Run(steps[..|steps| - 1]).value, steps[|steps| - 1]);
    }
  }

  // ------------------------------------------------------------- theorems

  /** All or nothing, in every interleaving: a refused job has no lane left, a running one has every lane it needs. */
  lemma AllOrNothing(steps: seq<Step>, w: Worker)
    requires Run(steps).Some? && w in Run(steps).value.jobs
    ensures var s := Run(steps).value;
            var job := s.jobs[w];
            && (job.stage.Out? ==> forall lane :: lane in s.lanes ==> s.lanes[lane] != w)
            && (job.stage.Running? ==>
                  && job.stage.slot < job.need.limit
                  && OwnsLane(s, w, UserSlot(job.need.user, job.stage.slot))
                  && OwnsLane(s, w, PortalLane(job.need.user, job.need.portal))
                  && (job.need.profile.Some? ==> OwnsLane(s, w, Profile(job.need.profile.value))))
  {
    RunKeeps(steps);
    var s := Run(steps).value;
    assert Tidy(s.lanes, w, s.jobs[w]);
    if s.jobs[w].stage.Out? {
      NothingLeft(s.lanes, w, s.jobs[w]);
    } else if s.jobs[w].stage.Running? {
      EverythingHeld(s, w);
    }
  }

  lemma NothingLeft(lanes: map<Lane, Worker>, w: Worker, job: Job)
    requires Tidy(lanes, w, job) && job.stage.Out?
    ensures forall lane :: lane in lanes ==> lanes[lane] != w
  {
    assert Has(job) == {};
  }

  lemma EverythingHeld(s: State, w: Worker)
    requires Inv(s) && w in s.jobs && s.jobs[w].stage.Running?
    ensures var job := s.jobs[w];
            && job.stage.slot < job.need.limit
            && OwnsLane(s, w, UserSlot(job.need.user, job.stage.slot))
            && OwnsLane(s, w, PortalLane(job.need.user, job.need.portal))
            && (job.need.profile.Some? ==> OwnsLane(s, w, Profile(job.need.profile.value)))
  {
    assert Tidy(s.lanes, w, s.jobs[w]) && Sound(s.jobs[w]);
  }

  // ------------------------------------------------------------ lost lanes

  /** The job is between its first grant and its last release, and at a call. */
  predicate MidCall(job: Job) {
    !CallAt(job).Nothing? && (job.stage.WantsProfile? || job.stage.WantsPortal? || job.stage.DropsPortal? || job.stage.DropsProfile?)
  }

  /** Step n is a call of w that throws while w is between its first grant and its last release. */
  predicate ThrewMidway(steps: seq<Step>, n: nat, w: Worker) {
    && n < |steps| && steps[n].Throw? && steps[n].w == w
    && Run(steps[..n]).Some? && w in Run(steps[..n]).value.jobs && MidCall(Run(steps[..n]).value.jobs[w])
  }

  /** A throwing call leaves renewed lanes behind exactly in the middle. */
  lemma ThrownLeaks(lanes: set<Lane>, job: Job, executed: bool)
    requires Sound(job) && !CallAt(job).Nothing?
    ensures Leaks(Thrown(lanes, job, executed).0) <==> MidCall(job)
  {
    if MidCall(job) {
      assert UserSlot(job.need.user, job.stage.slot) in Renewed(Thrown(lanes, job, executed).0.stage);
    }
  }

  /** A call that is answered neither starts nor ends a leak. */
  lemma AnsweredNeverLeaks(lanes: set<Lane>, job: Job)
    ensures Next(lanes, job).0.stage.Threw? <==> job.stage.Threw?
    ensures job.stage.Threw? ==> Next(lanes, job).0 == job
  {
  }

  lemma OthersStay(s: State, step: Step, w: Worker)
    requires Enabled(s, step) && step.w != w
    ensures w in Apply(s, step).jobs <==> w in s.jobs
    ensures w in s.jobs ==> Apply(s, step).jobs[w] == s.jobs[w]
  {
  }

  predicate LeaksAt(s: State, w: Worker) {
    w in s.jobs && Leaks(s.jobs[w])
  }

  /** The step is a call of w that throws midway. */
  predicate ThrowsMidway(s: State, step: Step, w: Worker) {
    step.Throw? && step.w == w && w in s.jobs && MidCall(s.jobs[w])
  }

  /** Only a throw makes a job leak. */
  lemma LeakSteps(s: State, step: Step, w: Worker)
    requires Inv(s) && Enabled(s, step)
    ensures LeaksAt(Apply(s, step), w) <==> LeaksAt(s, w) || ThrowsMidway(s, step, w)
  {
    if step.w != w {
      OthersStay(s, step, w);
    } else if step.Go? {
      AnsweredNeverLeaks(s.lanes.Keys, s.jobs[w]);
    } else if step.Throw? {
      ThrownLeaks(s.lanes.Keys, s.jobs[w], step.executed);
    }
  }

  /** Nothing ends a leak. */
  lemma LeakStays(s: State, step: Step, w: Worker)
    requires Enabled(s, step) && w in s.jobs && s.jobs[w].stage.Threw?
    ensures w in Apply(s, step).jobs && Apply(s, step).jobs[w].stage.Threw?
    ensures Renewed(Apply(s, step).jobs[w].stage) == Renewed(s.jobs[w].stage)
    ensures Apply(s, step).jobs[w].need == s.jobs[w].need
  {
    if step.w != w {
      OthersStay(s, step, w);
    } else if step.Go? {
      AnsweredNeverLeaks(s.lanes.Keys, s.jobs[w]);
    }
  }

  /** What was thrown in a run is what was thrown before its last step, and its last step if that throws. */
  lemma ThrewBefore(steps: seq<Step>, n: nat, w: Worker)
    requires Run(steps).Some? && steps != []
    ensures var init := steps[..|steps| - 1];
            ThrewMidway(steps, n, w) <==>
              || ThrewMidway(init, n, w)
              || (n == |init| && ThrowsMidway(Run(init).value, steps[|init|], w))
  {
    var init := steps[..|steps| - 1];
    if n < |init| {
      assert init[..n] == steps[..n];
    }
  }

  /** How one step changes which throws there were. */
  lemma ThrewOnce(steps: seq<Step>, w: Worker)
    requires Run(steps).Some? && steps != []
    ensures var init := steps[..|steps| - 1];
            EverThrew(steps, w) <==> EverThrew(init, w) || ThrowsMidway(Run(init).value, steps[|init|], w)
  {
    var init := steps[..|steps| - 1];
    ThrewBefore(steps, |init|, w);
    if EverThrew(steps, w) {
      var n :| ThrewMidway(steps, n, w);
      ThrewBefore(steps, n, w);
    } else if EverThrew(init, w) {
      var n :| ThrewMidway(init, n, w);
      ThrewBefore(steps, n, w);
    }
  }

  ghost predicate EverThrew(steps: seq<Step>, w: Worker) {
    exists n :: ThrewMidway(steps, n, w)
  }

  /**
   * When a job that ended still holds lanes that are renewed in its name: if and only if one of its
   * calls threw after its first grant and before its last release.
   */
  lemma {:induction false} LeaksExactly(steps: seq<Step>, w: Worker)
    requires Run(steps).Some?
    ensures LeaksAt(Run(steps).value, w) <==> EverThrew(steps, w)
    decreases |steps|
  {
    if steps != [] {
      var init := steps[..|steps| - 1];
      RunKeeps(init);
      LeaksExactly(init, w);
      LeakSteps(Run(init).value, steps[|init|], w);
      ThrewOnce(steps, w);
    }
  }

  /** And then it keeps them: no step of anyone takes such a lane away. */
  lemma {:induction false} LostForGood(steps: seq<Step>, n: nat, w: Worker, lane: Lane)
    requires n <= |steps| && Run(steps).Some? && Run(steps[..n]).Some? && w in Run(steps[..n]).value.jobs
    requires var job := Run(steps[..n]).value.jobs[w]; job.stage.Threw? && lane in Renewed(job.stage)
    ensures w in Run(steps).value.jobs && Run(steps).value.jobs[w].stage.Threw?
    ensures Run(steps).value.jobs[w].need == Run(steps[..n]).value.jobs[w].need
    ensures lane in Renewed(Run(steps).value.jobs[w].stage) && OwnsLane(Run(steps).value, w, lane)
    decreases |steps|
  {
    RunKeeps(steps);
    if n < |steps| {
      var init := steps[..|steps| - 1];
      assert init[..n] == steps[..n];
      LostForGood(init, n, w, lane);
      LeakStays(Run(init).value, steps[|steps| - 1], w);
    } else {
      assert steps[..n] == steps;
    }
    assert Tidy(Run(steps).value.lanes, w, Run(steps).value.jobs[w]);
  }

  predicate OwnsLane(s: State, w: Worker, lane: Lane) {
    lane in s.lanes && s.lanes[lane] == w
  }

  predicate RunsFor(s: State, user: nat, w: Worker) {
    w in s.jobs && s.jobs[w].stage.Running? && s.jobs[w].need.user == user
  }

  function RunningFor(s: State, user: nat): set<Worker> {
    set w | w in s.jobs && RunsFor(s, user, w)
  }

  /** Never two running jobs of a user on one portal, and never two on one browser profile. */
  lemma OnePerPortalAndProfile(steps: seq<Step>, v: Worker, w: Worker)
    requires Run(steps).Some? && v != w
    requires var s := Run(steps).value;
             v in s.jobs && w in s.jobs && s.jobs[v].stage.Running? && s.jobs[w].stage.Running?
    ensures var s := Run(steps).value;
            && (s.jobs[v].need.user == s.jobs[w].need.user ==> s.jobs[v].need.portal != s.jobs[w].need.portal)
            && (s.jobs[v].need.profile.Some? ==> s.jobs[v].need.profile != s.jobs[w].need.profile)
  {
    AllOrNothing(steps, v);
    AllOrNothing(steps, w);
  }

  function LeakingFor(s: State, user: nat): set<Worker> {
    set w | w in s.jobs && Leaks(s.jobs[w]) && s.jobs[w].need.user == user
  }

  predicate Occupies(s: State, w: Worker) {
    w in s.jobs && (s.jobs[w].stage.Running? || s.jobs[w].stage.Threw?)
  }

  function SlotOf(s: State, w: Worker): nat
    requires Occupies(s, w)
  {
    s.jobs[w].stage.slot
  }

  /** Workers with distinct slots below the limit are at most as many as the limit. */
  lemma {:induction false} SlotsBound(s: State, workers: set<Worker>, limit: nat)
    requires forall w :: w in workers ==> Occupies(s, w) && SlotOf(s, w) < limit
    requires forall v, w :: v in workers && w in workers && v != w ==> SlotOf(s, v) != SlotOf(s, w)
    ensures |workers| <= limit
    decreases limit
  {
    if workers == {} {
    } else if w :| w in workers && SlotOf(s, w) == limit - 1 {
      SlotsBound(s, workers - {w}, limit - 1);
    } else {
      var any :| any in workers;
      assert SlotOf(s, any) < limit;
      SlotsBound(s, workers, limit - 1);
    }
  }

  /**
   * Under one schedule a user's running jobs, and the ended ones that still hold lanes, are
   * together never more than the limit in force: each leak costs one job at a time.
   */
  lemma ConcurrencyBound(steps: seq<Step>, user: nat, limit: nat)
    requires Run(steps).Some?
    requires var s := Run(steps).value;
             forall w :: w in s.jobs && s.jobs[w].need.user == user ==> s.jobs[w].need.limit <= limit
    ensures |RunningFor(Run(steps).value, user)| + |LeakingFor(Run(steps).value, user)| <= limit
  {
    var s := Run(steps).value;
    var workers := RunningFor(s, user) + LeakingFor(s, user);
    forall w | w in workers
      ensures Occupies(s, w) && SlotOf(s, w) < limit && OwnsLane(s, w, UserSlot(user, SlotOf(s, w)))
    {
      RunKeeps(steps);
      assert Tidy(s.lanes, w, s.jobs[w]) && Sound(s.jobs[w]);
    }
    SlotsBound(s, workers, limit);
  }

  /** So a user whose jobs run one at a time applies to nothing more once a job has leaked. */
  lemma LeakStopsUser(steps: seq<Step>, n: nat, w: Worker, user: nat)
    requires n <= |steps| && Run(steps).Some? && Run(steps[..n]).Some?
    requires LeaksAt(Run(steps[..n]).value, w) && Run(steps[..n]).value.jobs[w].need.user == user
    requires var s := Run(steps).value;
             forall v :: v in s.jobs && s.jobs[v].need.user == user ==> s.jobs[v].need.limit <= 1
    ensures RunningFor(Run(steps).value, user) == {}
  {
    var s := Run(steps).value;
    var lane :| lane in Renewed(Run(steps[..n]).value.jobs[w].stage);
    LostForGood(steps, n, w, lane);
    ConcurrencyBound(steps, user, 1);
    assert w in LeakingFor(s, user);
  }

  /** So at most four, and at most one when the jobs share a VM browser profile. */
  lemma ConcurrencyOfSchedule(steps: seq<Step>, user: nat, configured: int, profile: Option<nat>)
    requires Run(steps).Some?
    requires var s := Run(steps).value;
             forall w :: w in s.jobs && s.jobs[w].need.user == user ==>
               s.jobs[w].need == NeedOf(user, configured, profile, s.jobs[w].need.portal)
    ensures |RunningFor(Run(steps).value, user)| <= RetryPolicy.EffectiveConcurrency(configured, profile.Some?) <= 4
    ensures profile.Some? ==> |RunningFor(Run(steps).value, user)| <= 1
  {
    ConcurrencyBound(steps, user, RetryPolicy.EffectiveConcurrency(configured, profile.Some?));
  }

  // --------------------------------------------------- the routine in place

  class Table {
    var lanes: map<Lane, Worker>

    constructor ()
      ensures lanes == map[]
    {
      lanes := map[];
    }

    method Acquire(lane: Lane, w: Worker) returns (ok: bool)
      modifies this
      ensures ok <==> lane !in old(lanes)
      ensures lanes == if ok then old(lanes)[lane := w] else old(lanes)
    {
      ok := lane !in lanes;
      if ok {
        lanes := lanes[lane := w];
      }
    }

    method ReleaseLane(lane: Lane, w: Worker)
      modifies this
      ensures lanes == if lane in old(lanes) && old(lanes)[lane] == w then old(lanes) - {lane} else old(lanes)
    {
      if lane in lanes && lanes[lane] == w {
        lanes := lanes - {lane};
      }
    }

    /** Left alone, a worker gets its lanes exactly when all are free, takes the lowest free slot, and otherwise leaves no trace. */
    method AcquireAll(need: Need, w: Worker) returns (slot: Option<nat>)
      modifies this
      ensures slot.Some? <==>
                && (exists k :: 0 <= k < need.limit && UserSlot(need.user, k) !in old(lanes))
                && (need.profile.Some? ==> Profile(need.profile.value) !in old(lanes))
                && PortalLane(need.user, need.portal) !in old(lanes)
      ensures slot.None? ==> lanes == old(lanes)
      ensures slot.Some? ==>
                && slot.value < need.limit && UserSlot(need.user, slot.value) !in old(lanes)
                && (forall k :: 0 <= k < slot.value ==> UserSlot(need.user, k) in old(lanes))
                && lanes == old(lanes) + Bundle(need, slot.value, w)
    {
      var k := 0;
      var got := false;
      while k < need.limit && !got
        invariant k <= need.limit
        invariant !got ==> lanes == old(lanes) && forall j :: 0 <= j < k ==> UserSlot(need.user, j) in old(lanes)
        invariant got ==>
                    && k > 0 && lanes == old(lanes)[UserSlot(need.user, k - 1) := w] && UserSlot(need.user, k - 1) !in old(lanes)
                    && forall j :: 0 <= j < k - 1 ==> UserSlot(need.user, j) in old(lanes)
      {
        got := Acquire(UserSlot(need.user, k), w);
        k := k + 1;
      }
      if !got {
        return None;
      }
      var taken := UserSlot(need.user, k - 1);
      if need.profile.Some? {
        var ok := Acquire(Profile(need.profile.value), w);
        if !ok {
          ReleaseLane(taken, w);
          assert lanes == old(lanes);
          return None;
        }
      }
      var ok := Acquire(PortalLane(need.user, need.portal), w);
      if !ok {
        if need.profile.Some? {
          ReleaseLane(Profile(need.profile.value), w);
        }
        ReleaseLane(taken, w);
        assert lanes == old(lanes);
        return None;
      }
      slot := Some(k - 1);
    }
  }

  function Bundle(need: Need, slot: nat, w: Worker): map<Lane, Worker> {
    var base := map[UserSlot(need.user, slot) := w, PortalLane(need.user, need.portal) := w];
    if need.profile.Some? then base[Profile(need.profile.value) := w] else base
  }
}
