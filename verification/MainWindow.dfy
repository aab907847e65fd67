/**
 The main-window lifecycle and its idle-exit deadline (src-tauri/src/main_window.rs, driven by the
 event handlers in src-tauri/src/lib.rs).

 Each step below is one atomic action of some thread. Scheduling is two steps, as in the source: the
 eligibility check, and later the epoch bump that arms a timer; anything may run in between.
 `checked` collects the moments at which a check succeeded, and an arm names one of them. A timer's
 wake-up check is one step. Which windows exist and whether music plays are part of the state
 and change by their own steps.
 */
module MainWindow {
  import opened Common

  const IDLE_EXIT_GRACE := 300_000

  /** A sleeping timer: its epoch, when it was armed, and when eligibility had been checked. */
  datatype Timer = Timer(epoch: nat, armedAt: int, checkedAt: int)

  datatype State = State(
    now: int,
    background: bool,
    mainReady: bool,
    building: bool,
    quitting: bool,
    epoch: nat,
    hasMain: bool,
    hasMini: bool,
    playing: bool,
    checked: set<int>,
    timers: set<Timer>,
    teardowns: nat)

  datatype Step =
    | Tick(to: int)
    | PlayFlag(on: bool)
    | PlayEvent(on: bool)
    | ScheduleCheck
    | Arm(checkedAt: int)
    | Wake(timer: Timer)
    | RequestQuit
    | PrepareHibernate
    | HibernateMain(destroyed: bool)
    | Show
    | MainBuilt(ok: bool)
    | FrontendReady(shown: bool)
    | Failsafe(shown: bool)
    | MiniOpened
    | MainDestroyed
    | MiniDestroyed

  const START := State(0, false, false, false, false, 0, true, false, false, {}, {}, 0)

  // ---- what each step does ---------------------------------------------------------------------

  predicate HasUi(s: State) {
    s.hasMain || s.hasMini
  }

  predicate Eligible(s: State) {
    s.background && !HasUi(s) && !s.playing
  }

  function Cancelled(s: State): State {
    s.(epoch := s.epoch + 1)
  }

  function Quit(s: State): State {
    if s.quitting then s
    else Cancelled(s).(quitting := true, background := false, teardowns := s.teardowns + 1)
  }

  function Checked(s: State): State {
    if Eligible(s) then s.(checked := s.checked + {s.now}) else Cancelled(s)
  }

  /** A window that is destroyed reports it: nothing while quitting, else schedule or quit. */
  function AfterMainGone(s: State): State {
    if s.quitting then s else if s.background then Checked(s) else Quit(s)
  }

  predicate Enabled(s: State, step: Step) {
    match step
    case Tick(to) => to >= s.now
    case Arm(checkedAt) => checkedAt in s.checked
    case Wake(timer) => timer in s.timers && s.now >= timer.armedAt + IDLE_EXIT_GRACE
    case MainBuilt(_) => s.building
    case MainDestroyed => s.hasMain
    case MiniDestroyed => s.hasMini
    case _ => true
  }

  /** A timer's wake-up check lets it quit the process. */
  predicate Fires(s: State, timer: Timer) {
    s.epoch == timer.epoch && Eligible(s)
  }

  function Next(s: State, step: Step): State {
    match step
    case Tick(to) => s.(now := to)
    case PlayFlag(on) => s.(playing := on)
    case PlayEvent(on) => if on then Cancelled(s) else Checked(s)
    case ScheduleCheck => Checked(s)
    case Arm(checkedAt) =>
      Cancelled(s).(timers := s.timers + {Timer(s.epoch + 1, s.now, checkedAt)})
    case Wake(timer) =>
      var s' := s.(timers := s.timers - {timer});
      if Fires(s, timer) then Quit(s') else s'
    case RequestQuit => Quit(s)
    case PrepareHibernate => Cancelled(s).(background := true)
    case HibernateMain(destroyed) =>
      if s.hasMain then Cancelled(s).(mainReady := false, background := destroyed)
      else s.(mainReady := false)
    case Show =>
      if s.hasMain then Cancelled(s).(background := s.background && !s.mainReady)
      else if s.building then Cancelled(s)
      else Cancelled(s).(building := true, background := true, mainReady := false)
    case MainBuilt(ok) =>
      if ok then Cancelled(s).(building := false, hasMain := true) else s.(building := false)
    case FrontendReady(shown) =>
      if !s.hasMain then s
      else Cancelled(s).(mainReady := true, background := s.background && !shown)
    case Failsafe(shown) =>
      if s.mainReady || s.quitting || !s.hasMain || !shown then s
      else s.(mainReady := true, background := false)
    case MiniOpened => s.(hasMini := true)
    case MainDestroyed => AfterMainGone(s.(hasMain := false))
    case MiniDestroyed =>
      var s' := s.(hasMini := false);
      if s.quitting then s' else Checked(s')
  }

  // ---- runs ------------------------------------------------------------------------------------

  function Run(h: seq<Step>): State {
    if h == [] then START else Next(Run(h[..|h| - 1]), h[|h| - 1])
  }

  predicate Possible(h: seq<Step>) {
    h != [] ==> Possible(h[..|h| - 1]) && Enabled(Run(h[..|h| - 1]), h[|h| - 1])
  }

  /** The step at `i` moves the epoch: a cancel, an arm, or the start of a quit. */
  ghost predicate Bumps(h: seq<Step>, i: nat)
    requires i < |h|
  {
    Run(h[..i]).epoch != Run(h[..i + 1]).epoch
  }

  ghost predicate Consistent(s: State) {
    && s.teardowns == (if s.quitting then 1 else 0)
    && (forall t :: t in s.timers ==> t.epoch <= s.epoch)
    && (forall t, u :: t in s.timers && u in s.timers && t.epoch == u.epoch ==> t == u)
  }

  /** Nothing but time and flags move back: the epoch only grows, quitting is for good and counted once. */
  ghost predicate Forward(s: State, s': State) {
    && s.epoch <= s'.epoch && (s.quitting ==> s'.quitting)
    && s'.teardowns == s.teardowns + (if s'.quitting && !s.quitting then 1 else 0)
  }

  /** A check was recorded, if any, with the session idle at that moment. */
  ghost predicate Records(s: State, s': State) {
    s'.checked == s.checked || (s'.checked == s.checked + {s'.now} && Eligible(s'))
  }

  lemma QuitMoves(s: State)
    ensures Forward(s, Quit(s)) && Quit(s).timers == s.timers && Quit(s).checked == s.checked
  {
  }

  lemma CheckMoves(s: State)
    ensures Forward(s, Checked(s)) && Checked(s).timers == s.timers && Records(s, Checked(s))
  {
  }

  lemma GoneMoves(s: State)
    ensures Forward(s, AfterMainGone(s)) && AfterMainGone(s).timers == s.timers && Records(s, AfterMainGone(s))
  {
    hide Quit, Checked;
    QuitMoves(s);
    CheckMoves(s);
  }

  /** What any step but an arm keeps: it moves forward, arms nothing, and records only a true check. */
  ghost predicate Moves(s: State, s': State) {
    Forward(s, s') && s'.timers <= s.timers && Records(s, s')
  }

  /** The clock and what changes outside. */
  lemma FlagStepMoves(s: State, step: Step)
    requires step.Tick? || step.PlayFlag? || step.MiniOpened?
    ensures Moves(s, Next(s, step))
  {
  }

  lemma CancelMoves(s: State)
    ensures Moves(s, Cancelled(s))
  {
  }

  lemma CheckStepMoves(s: State, step: Step)
    requires step.PlayEvent? || step.ScheduleCheck?
    ensures Moves(s, Next(s, step))
  {
    CheckMoves(s);
    CancelMoves(s);
    hide Checked, Cancelled, Forward, Records;
  }

  lemma WindowStepMoves(s: State, step: Step)
    requires step.PrepareHibernate? || step.HibernateMain? || step.Show? || step.MainBuilt?
             || step.FrontendReady? || step.Failsafe?
    ensures Moves(s, Next(s, step))
  {
  }

  /** Steps that may quit the process. */
  lemma QuitStepMoves(s: State, step: Step)
    requires step.RequestQuit? || step.MainDestroyed? || step.MiniDestroyed?
    ensures Moves(s, Next(s, step))
  {
    hide Quit, Checked, AfterMainGone;
    match step
    case RequestQuit => QuitMoves(s);
    case MainDestroyed => GoneMoves(s.(hasMain := false));
    case MiniDestroyed => CheckMoves(s.(hasMini := false));
  }

  lemma WakeMoves(s: State, timer: Timer)
    ensures Moves(s, Next(s, Wake(timer)))
  {
    hide Quit, Fires;
    QuitMoves(s.(timers := s.timers - {timer}));
  }

  lemma ArmMoves(s: State, checkedAt: int)
    ensures var s' := Next(s, Arm(checkedAt));
            Forward(s, s') && s'.checked == s.checked && s'.epoch > s.epoch
            && s'.timers == s.timers + {Timer(s'.epoch, s.now, checkedAt)}
  {
  }

  lemma StepMovesForward(s: State, step: Step)
    ensures var s' := Next(s, step);
            && Forward(s, s')
            && (if step.Arm? then s'.epoch > s.epoch && s'.timers == s.timers + {Timer(s'.epoch, s.now, step.checkedAt)}
                else s'.timers <= s.timers)
            && Records(s, s')
  {
    hide Next, Forward;
    match step {
      case Arm(checkedAt) => ArmMoves(s, checkedAt);
      case Wake(timer) => WakeMoves(s, timer);
      case RequestQuit => QuitStepMoves(s, step);
      case MainDestroyed => QuitStepMoves(s, step);
      case MiniDestroyed => QuitStepMoves(s, step);
      case Tick(_) => FlagStepMoves(s, step);
      case PlayFlag(_) => FlagStepMoves(s, step);
      case PlayEvent(_) => CheckStepMoves(s, step);
      case ScheduleCheck => CheckStepMoves(s, step);
      case MiniOpened => FlagStepMoves(s, step);
      case _ => WindowStepMoves(s, step);
    }
  }

  lemma StepKeepsConsistent(s: State, step: Step)
    requires Consistent(s)
    ensures Consistent(Next(s, step))
  {
    StepMovesForward(s, step);
    hide Next;
    var s' := Next(s, step);
    forall t, u | t in s'.timers && u in s'.timers && t.epoch == u.epoch ensures t == u {
    }
  }

  predicate CanStillFire(s: State, t: Timer) {
    t in s.timers && t.epoch == s.epoch
  }

  /** In every interleaving: one teardown at most, and at most one sleeping timer that can still fire. */
  lemma {:induction false} RunsAreConsistent(h: seq<Step>)
    ensures Consistent(Run(h)) && Run(h).teardowns <= 1
    ensures forall t, u :: CanStillFire(Run(h), t) && CanStillFire(Run(h), u) ==> t == u
  {
    hide Next;
    if h != [] {
      RunsAreConsistent(h[..|h| - 1]);
      StepKeepsConsistent(Run(h[..|h| - 1]), h[|h| - 1]);
    }
  }

  lemma {:induction false} EpochGrows(h: seq<Step>, i: nat, j: nat)
    requires i <= j <= |h|
    ensures Run(h[..i]).epoch <= Run(h[..j]).epoch
    decreases j - i
  {
    hide Next;
    if i < j {
      EpochGrows(h, i, j - 1);
      PrefixStep(h, j - 1);
      assert h[..j][|h[..j]| - 1] == h[j - 1];
      StepMovesForward(Run(h[..j - 1]), h[j - 1]);
    }
  }

  // ---- where a timer comes from ----------------------------------------------------------------

  /** Step `i` checked eligibility and found it, at time `at`. */
  ghost predicate ChecksAt(h: seq<Step>, i: nat, at: int)
    requires i < |h|
  {
    Run(h[..i + 1]).now == at && Eligible(Run(h[..i + 1]))
    && Run(h[..i + 1]).checked == Run(h[..i]).checked + {at}
  }

  /** Step `j` armed `t`. */
  ghost predicate Arms(h: seq<Step>, j: nat, t: Timer)
    requires j < |h|
  {
    h[j] == Arm(t.checkedAt) && Run(h[..j]).now == t.armedAt && Run(h[..j + 1]).epoch == t.epoch
  }

  lemma {:induction false} CheckSource(h: seq<Step>, at: int) returns (i: nat)
    requires at in Run(h).checked
    ensures i < |h| && ChecksAt(h, i, at)
  {
    hide Next;
    var n := |h| - 1;
    var front := h[..n];
    if at in Run(front).checked {
      i := CheckSource(front, at);
      assert h[..i] == front[..i] && h[..i + 1] == front[..i + 1];
    } else {
      StepMovesForward(Run(front), h[n]);
      i := n;
      assert h[..n + 1] == h;
    }
  }

  lemma {:induction false} TimerSource(h: seq<Step>, t: Timer) returns (i: nat, j: nat)
    requires Possible(h) && t in Run(h).timers
    ensures i < j < |h| && ChecksAt(h, i, t.checkedAt) && Arms(h, j, t)
  {
    hide Next;
    var n := |h| - 1;
    var front := h[..n];
    StepMovesForward(Run(front), h[n]);
    if t in Run(front).timers {
      i, j := TimerSource(front, t);
      assert h[..j] == front[..j] && h[..j + 1] == front[..j + 1];
    } else {
      i := CheckSource(front, t.checkedAt);
      j := n;
      assert h[..n + 1] == h;
    }
    assert h[..i] == front[..i] && h[..i + 1] == front[..i + 1];
  }

  lemma WakeFires(s: State, t: Timer)
    ensures Next(s, Wake(t)).teardowns > s.teardowns ==> Fires(s, t) && !s.quitting
    ensures Next(s, Wake(t)).teardowns != s.teardowns ==> Fires(s, t)
  {
  }

  // ---- idleness from check to firing -----------------------------------------------------------

  /** A step that takes an idle session out of idleness: playback, a window, or the start of a quit. */
  predicate Disturbs(s: State, step: Step) {
    match step
    case PlayFlag(on) => on
    case MiniOpened => true
    case MainBuilt(ok) => ok
    case RequestQuit => !s.quitting
    case Wake(timer) => Fires(s, timer) && !s.quitting
    case _ => false
  }

  lemma DisturbedOrIdle(s: State, step: Step)
    requires Eligible(s) && Enabled(s, step)
    ensures Eligible(Next(s, step)) <==> !Disturbs(s, step)
  {
  }

  lemma {:induction false} PossiblePrefix(h: seq<Step>, k: nat)
    requires Possible(h) && k < |h|
    ensures Enabled(Run(h[..k]), h[k]) && Run(h[..k + 1]) == Next(Run(h[..k]), h[k])
  {
    hide Next, Enabled;
    assert h[..k + 1][..k] == h[..k];
    var front := h[..|h| - 1];
    if k < |h| - 1 {
      PossiblePrefix(front, k);
      assert front[..k] == h[..k];
    }
  }

  /** The state after the first `k` steps. */
  function After(h: seq<Step>, k: nat): State
    requires k <= |h|
  {
    Run(h[..k])
  }

  ghost predicate StaysIdle(h: seq<Step>, i: nat, j: nat)
    requires j <= |h|
  {
    forall k :: i < k <= j ==> Eligible(After(h, k))
  }

  ghost predicate Undisturbed(h: seq<Step>, i: nat, j: nat)
    requires j <= |h|
  {
    forall k :: i < k < j ==> !Disturbs(After(h, k), h[k])
  }

  /**
   Once a check has found the session idle, it stays idle up to any later moment exactly when no step
   before that moment disturbs it.
   */
  lemma {:induction false} IdleUntilDisturbed(h: seq<Step>, i: nat, j: nat)
    requires Possible(h) && i < j <= |h| && Eligible(After(h, i + 1))
    ensures StaysIdle(h, i, j) <==> Undisturbed(h, i, j)
    decreases j
  {
    hide After, Possible, Eligible, Disturbs;
    if i + 1 < j {
      IdleUntilDisturbed(h, i, j - 1);
      assert StaysIdle(h, i, j) <==> StaysIdle(h, i, j - 1) && Eligible(After(h, j));
      assert Undisturbed(h, i, j) <==> Undisturbed(h, i, j - 1) && !Disturbs(After(h, j - 1), h[j - 1]);
      if StaysIdle(h, i, j - 1) {
        IdleStep(h, j - 1);
      }
    }
  }

  lemma IdleStep(h: seq<Step>, k: nat)
    requires Possible(h) && k < |h| && Eligible(After(h, k))
    ensures Eligible(After(h, k + 1)) <==> !Disturbs(After(h, k), h[k])
  {
    hide Next, Enabled, Eligible, Disturbs;
    PossiblePrefix(h, k);
    DisturbedOrIdle(Run(h[..k]), h[k]);
  }

  /** Without a move of the epoch, only the play flag or the mini player can disturb. */
  lemma QuietDisturbance(s: State, step: Step)
    requires Disturbs(s, step) && Next(s, step).epoch == s.epoch
    ensures step == PlayFlag(true) || step == MiniOpened
  {
  }

  /**
   A timer that quits the process was armed at least the grace period earlier, after a check that found
   the session idle; nothing has cancelled or re-armed since; and the session is idle now. It was idle
   at every moment from the check to the arming, and from the check to now, exactly when no step on
   the way disturbed it. After the arming only the play flag or the mini player can have done so.
   */
  lemma QuitIsEarned(h: seq<Step>, t: Timer) returns (i: nat, j: nat)
    requires Possible(h + [Wake(t)]) && Next(Run(h), Wake(t)).teardowns > Run(h).teardowns
    ensures i < j < |h| && ChecksAt(h, i, t.checkedAt) && Arms(h, j, t)
    ensures Run(h).now >= t.armedAt + IDLE_EXIT_GRACE
    ensures forall k :: j < k < |h| ==> !Bumps(h, k)
    ensures Eligible(Run(h)) && !Run(h).quitting
    ensures StaysIdle(h, i, j) <==> Undisturbed(h, i, j)
    ensures StaysIdle(h, i, |h|) <==> Undisturbed(h, i, |h|)
    ensures forall k :: j < k < |h| && Disturbs(After(h, k), h[k]) ==> h[k] == PlayFlag(true) || h[k] == MiniOpened
  {
    hide Next, Disturbs;
    assert (h + [Wake(t)])[..|h|] == h;
    WakeFires(Run(h), t);
    i, j := TimerSource(h, t);
    NothingBumps(h, t, j);
    hide Possible, Enabled, Eligible, Fires, Run, Bumps;
    IdleUntilDisturbed(h, i, j);
    IdleUntilDisturbed(h, i, |h|);
    forall k | j < k < |h| && Disturbs(After(h, k), h[k]) ensures h[k] == PlayFlag(true) || h[k] == MiniOpened {
      SameEpoch(h, k);
      QuietDisturbance(After(h, k), h[k]);
    }
  }

  lemma SameEpoch(h: seq<Step>, k: nat)
    requires Possible(h) && k < |h| && !Bumps(h, k)
    ensures Next(After(h, k), h[k]).epoch == After(h, k).epoch
  {
    hide Next;
    PossiblePrefix(h, k);
  }

  lemma NothingBumps(h: seq<Step>, t: Timer, j: nat)
    requires j < |h| && Arms(h, j, t) && Run(h).epoch == t.epoch
    ensures forall k :: j < k < |h| ==> !Bumps(h, k)
  {
    hide Next;
    forall k | j < k < |h| ensures !Bumps(h, k) {
      EpochGrows(h, j + 1, k);
      EpochGrows(h, k, k + 1);
      EpochGrows(h, k + 1, |h|);
      assert h[..|h|] == h;
      hide Run;
    }
  }

  lemma RunAppend(h: seq<Step>, step: Step)
    ensures Run(h + [step]) == Next(Run(h), step)
    ensures Possible(h + [step]) <==> Possible(h) && Enabled(Run(h), step)
  {
    hide Next, Enabled;
    assert (h + [step])[..|h + [step]| - 1] == h;
  }

  /** The states of the run below, one step at a time. */
  lemma LateArmStates(t: Timer, idle: State, playing: State, armed: State, due: State)
    requires t == Timer(2, 0, 0)
    requires idle == START.(epoch := 1, background := true, hasMain := false, checked := {0})
    requires playing == idle.(playing := true)
    requires armed == playing.(epoch := 2, timers := {t})
    requires due == armed.(playing := false, now := IDLE_EXIT_GRACE)
    ensures Next(Next(START, PrepareHibernate), MainDestroyed) == idle && Eligible(idle)
    ensures Enabled(START, PrepareHibernate) && Enabled(Next(START, PrepareHibernate), MainDestroyed)
    ensures Next(START, PrepareHibernate).checked == {}
    ensures Next(idle, PlayFlag(true)) == playing && Enabled(idle, PlayFlag(true)) && !Eligible(playing)
    ensures Next(playing, Arm(0)) == armed && Enabled(playing, Arm(0))
    ensures Next(Next(armed, PlayFlag(false)), Tick(IDLE_EXIT_GRACE)) == due
    ensures Enabled(armed, PlayFlag(false)) && Enabled(Next(armed, PlayFlag(false)), Tick(IDLE_EXIT_GRACE))
    ensures Enabled(due, Wake(t)) && Next(due, Wake(t)).teardowns == 1
  {
  }

  /**
   A step between check and arm can disturb: here music plays while the timer is armed, pauses again
   without a word, and the timer quits the process all the same.
   */
  lemma LateArmCanQuit() returns (h: seq<Step>, t: Timer)
    ensures |h| == 6 && h[3] == Arm(t.checkedAt) && !Eligible(Run(h[..3]))
    ensures Arms(h, 3, t) && ChecksAt(h, 1, t.checkedAt)
    ensures Possible(h + [Wake(t)]) && Next(Run(h), Wake(t)).teardowns > Run(h).teardowns
  {
    t := Timer(2, 0, 0);
    var idle := START.(epoch := 1, background := true, hasMain := false, checked := {0});
    var playing := idle.(playing := true);
    var armed := playing.(epoch := 2, timers := {t});
    var due := armed.(playing := false, now := IDLE_EXIT_GRACE);
    LateArmStates(t, idle, playing, armed, due);
    assert Run([]) == START && Possible([]);
    hide Run, Possible, Next, Enabled, Eligible;
    var h1 := [PrepareHibernate];
    var h2 := h1 + [MainDestroyed];
    var h3 := h2 + [PlayFlag(true)];
    var h4 := h3 + [Arm(0)];
    var h5 := h4 + [PlayFlag(false)];
    h := h5 + [Tick(IDLE_EXIT_GRACE)];
    RunAppend([], PrepareHibernate);
    assert [] + [PrepareHibernate] == h1;
    RunAppend(h1, MainDestroyed);
    RunAppend(h2, PlayFlag(true));
    RunAppend(h3, Arm(0));
    RunAppend(h4, PlayFlag(false));
    RunAppend(h5, Tick(IDLE_EXIT_GRACE));
    RunAppend(h, Wake(t));
    assert h[..1] == h1 && h[..2] == h2 && h[..3] == h3 && h[..4] == h4;
  }

  /** Once the epoch has moved on, a timer armed before never quits, in any continuation. */
  lemma {:induction false} StaleTimersNeverFire(h: seq<Step>, more: seq<Step>, t: Timer)
    requires t.epoch < Run(h).epoch
    ensures Next(Run(h + more), Wake(t)).teardowns == Run(h + more).teardowns
  {
    hide Next;
    WakeFires(Run(h + more), t);
    EpochGrows(h + more, |h|, |h + more|);
    assert (h + more)[..|h|] == h && (h + more)[..|h + more|] == h + more;
  }

  /** Resuming, showing, hibernating and a mounted frontend each retire every timer armed so far. */
  lemma CancellersRetire(h: seq<Step>, step: Step, t: Timer)
    requires t in Run(h).timers
    requires step in {PlayEvent(true), Show, PrepareHibernate} || (step.FrontendReady? && Run(h).hasMain)
    ensures t.epoch < Next(Run(h), step).epoch
  {
    RunsAreConsistent(h);
  }

  // ---- the process-wide flags as they are updated ----------------------------------------------

  class Lifecycle {
    var background: bool
    var mainReady: bool
    var building: bool
    var quitting: bool
    var epoch: nat
    var hasMain: bool
    var hasMini: bool
    var playing: bool
    ghost var now: int
    ghost var checked: set<int>
    ghost var timers: set<Timer>
    ghost var teardowns: nat

    ghost function View(): State
      reads this
    {
      State(now, background, mainReady, building, quitting, epoch, hasMain, hasMini, playing,
            checked, timers, teardowns)
    }

    method CancelIdleExit()
      modifies this`epoch
      ensures View() == Cancelled(old(View()))
    {
      epoch := epoch + 1;
    }

    method IdleExitEligible() returns (b: bool)
      ensures b == Eligible(View())
    {
      b := background && !(hasMain || hasMini) && !playing;
    }

    /** The first half of scheduling; when it answers true, `ArmTimer` follows at some later moment. */
    method CheckIdle() returns (arm: bool)
      modifies this`epoch, this`checked
      ensures View() == Checked(old(View())) && arm == Eligible(old(View()))
    {
      arm := IdleExitEligible();
      if !arm {
        CancelIdleExit();
        return;
      }
      checked := checked + {now};
    }

    method ArmTimer(ghost checkedAt: int) returns (armed: nat)
      requires checkedAt in checked
      modifies this`epoch, this`timers
      ensures View() == Next(old(View()), Arm(checkedAt)) && armed == epoch
    {
      epoch := epoch + 1;
      armed := epoch;
      timers := timers + {Timer(epoch, now, checkedAt)};
    }

    method BeginQuit()
      modifies this
      ensures View() == Quit(old(View()))
    {
      if quitting {
        return;
      }
      quitting := true;
      CancelIdleExit();
      background := false;
      teardowns := teardowns + 1;
    }

    method WakeTimer(armed: nat, ghost timer: Timer)
      requires timer.epoch == armed && Enabled(View(), Wake(timer))
      modifies this
      ensures View() == Next(old(View()), Wake(timer))
    {
      timers := timers - {timer};
      if epoch != armed {
        return;
      }
      var idle := IdleExitEligible();
      if idle {
        BeginQuit();
      }
    }

    method Prepare()
      modifies this
      ensures View() == Next(old(View()), PrepareHibernate)
    {
      CancelIdleExit();
      background := true;
    }

    method Hibernate(destroyed: bool)
      modifies this
      ensures View() == Next(old(View()), HibernateMain(destroyed))
    {
      mainReady := false;
      if !hasMain {
        return;
      }
      Prepare();
      if !destroyed {
        background := false;
      }
    }

    method ShowMain()
      modifies this
      ensures View() == Next(old(View()), Show)
    {
      CancelIdleExit();
      if hasMain {
        if mainReady {
          background := false;
        }
        return;
      }
      if building {
        return;
      }
      building := true;
      background := true;
      mainReady := false;
    }

    method Ready(shown: bool)
      modifies this
      ensures View() == Next(old(View()), FrontendReady(shown))
    {
      if !hasMain {
        return;
      }
      mainReady := true;
      CancelIdleExit();
      if shown {
        background := false;
      }
    }

    method RevealFailsafe(shown: bool)
      modifies this
      ensures View() == Next(old(View()), Failsafe(shown))
    {
      if mainReady || quitting || !hasMain || !shown {
        return;
      }
      mainReady := true;
      background := false;
    }

    method OnMainDestroyed()
      requires hasMain
      modifies this
      ensures View() == Next(old(View()), MainDestroyed)
    {
      hasMain := false;
      if quitting {
      } else if background {
        var _ := CheckIdle();
      } else {
        BeginQuit();
      }
    }

    method OnMiniDestroyed()
      requires hasMini
      modifies this
      ensures View() == Next(old(View()), MiniDestroyed)
    {
      hasMini := false;
      if !quitting {
        var _ := CheckIdle();
      }
    }

    method OnMainBuilt(ok: bool)
      requires building
      modifies this
      ensures View() == Next(old(View()), MainBuilt(ok))
    {
      building := false;
      if ok {
        hasMain := true;
        CancelIdleExit();
      }
    }

    method OnPlaying(on: bool)
      modifies this
      ensures View() == Next(old(View()), PlayEvent(on))
    {
      if on {
        CancelIdleExit();
      } else {
        var _ := CheckIdle();
      }
    }

    /** One step of any thread, or a change of the world outside: the clock, the player, the windows. */
    method Take(step: Step)
      requires Enabled(View(), step)
      modifies this
      ensures View() == Next(old(View()), step)
    {
      match step
      case Tick(to) => now := to;
      case PlayFlag(on) => playing := on;
      case PlayEvent(on) => OnPlaying(on);
      case ScheduleCheck => var _ := CheckIdle();
      case Arm(checkedAt) => var _ := ArmTimer(checkedAt);
      case Wake(timer) => WakeTimer(timer.epoch, timer);
      case RequestQuit => BeginQuit();
      case PrepareHibernate => Prepare();
      case HibernateMain(destroyed) => Hibernate(destroyed);
      case Show => ShowMain();
      case MainBuilt(ok) => OnMainBuilt(ok);
      case FrontendReady(shown) => Ready(shown);
      case Failsafe(shown) => RevealFailsafe(shown);
      case MiniOpened => hasMini := true;
      case MainDestroyed => OnMainDestroyed();
      case MiniDestroyed => OnMiniDestroyed();
    }

    /** However the threads interleave, the flags follow `Run`, and its guarantees hold of them. */
    method Drive(h: seq<Step>)
      requires Possible(h) && View() == START
      modifies this
      ensures View() == Run(h) && Consistent(View()) && teardowns <= 1
      ensures forall t, u :: CanStillFire(View(), t) && CanStillFire(View(), u) ==> t == u
    {
      hide Next, Enabled, Possible;
      var i := 0;
      assert h[..0] == [];
      while i < |h|
        invariant 0 <= i <= |h| && View() == Run(h[..i])
      {
        PossiblePrefix(h, i);
        Take(h[i]);
        i := i + 1;
      }
      assert h[..i] == h;
      RunsAreConsistent(h);
    }
  }
}
