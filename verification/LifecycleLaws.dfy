/**
 What no run of the window lifecycle can reach, and what each handler means for the process.
 */
module LifecycleLaws {
  import opened Common
  import opened MainWindow

  // ---- over every run --------------------------------------------------------------------------

  /** The process is quitting, or shows its main window, or is in background mode; and builds only a missing one. */
  ghost predicate Reachable(s: State) {
    && (s.quitting || s.hasMain || s.background)
    && (s.building ==> !s.hasMain)
  }

  lemma StepStaysReachable(s: State, step: Step)
    requires Reachable(s) && Enabled(s, step)
    ensures Reachable(Next(s, step))
  {
  }

  /** No run strands the process: with no window and out of the background it is quitting. */
  lemma {:induction false} NeverStranded(h: seq<Step>)
    requires Possible(h)
    ensures Reachable(Run(h))
  {
    hide Next, Enabled;
    if h != [] {
      NeverStranded(h[..|h| - 1]);
      StepStaysReachable(Run(h[..|h| - 1]), h[|h| - 1]);
    }
  }

  // ---- the deadline ----------------------------------------------------------------------------

  /** Timers armed so far that could fire now or later. */
  ghost predicate NoneAlive(s: State) {
    forall t :: t in s.timers ==> t.epoch < s.epoch
  }

  /**
   A check that finds the session busy retires every timer; one that finds it idle changes nothing. The
   same goes for a pause and for the mini player's end, unless the process is quitting already.
   */
  lemma ChecksRetireWhenBusy(s: State)
    requires Consistent(s)
    ensures !Eligible(s) ==> NoneAlive(Next(s, ScheduleCheck)) && NoneAlive(Next(s, PlayEvent(false)))
    ensures Eligible(s) ==>
              Next(s, ScheduleCheck).(checked := s.checked) == s == Next(s, PlayEvent(false)).(checked := s.checked)
    ensures !s.quitting && !Eligible(s.(hasMini := false)) ==> NoneAlive(Next(s, MiniDestroyed))
    ensures s.quitting ==> Next(s, MiniDestroyed) == s.(hasMini := false)
  {
  }

  /** Whatever puts a window up or starts a quit retires every timer; arming retires all but the new one. */
  lemma WindowsRetire(s: State, checkedAt: int)
    requires Consistent(s)
    ensures NoneAlive(Next(s, MainBuilt(true))) && NoneAlive(Next(s, Show)) && NoneAlive(Next(s, PrepareHibernate))
    ensures s.hasMain ==> forall shown :: NoneAlive(Next(s, FrontendReady(shown)))
    ensures s.hasMain ==> forall destroyed :: NoneAlive(Next(s, HibernateMain(destroyed)))
    ensures !s.quitting ==> NoneAlive(Next(s, RequestQuit))
    ensures forall t :: t in Next(s, Arm(checkedAt)).timers && t.epoch == Next(s, Arm(checkedAt)).epoch ==>
              t.armedAt == s.now && t.checkedAt == checkedAt
  {
  }

  /** A timer sleeps five minutes, and its wake-up quits exactly if it is the last armed and the session is idle. */
  lemma WakingMeans(s: State, t: Timer)
    ensures Enabled(s, Wake(t)) <==> t in s.timers && s.now - t.armedAt >= 5 * 60_000
    ensures Next(s, Wake(t)) ==
              if t.epoch == s.epoch && s.background && !s.hasMain && !s.hasMini && !s.playing
              then Next(s.(timers := s.timers - {t}), RequestQuit) else s.(timers := s.timers - {t})
  {
  }

  // ---- what the handlers mean ------------------------------------------------------------------

  /** A window is shown only out of the background, and only once its frontend is there or given up on. */
  lemma RevealsLeaveBackground(s: State)
    requires s.hasMain
    ensures s.mainReady ==> !Next(s, Show).background
    ensures !s.mainReady ==> Next(s, Show).background == s.background && !Next(s, Show).mainReady
    ensures var ready := Next(s, FrontendReady(true)); ready.mainReady && !ready.background
    ensures var failed := Next(s, FrontendReady(false)); failed.mainReady && failed.background == s.background
    ensures !s.quitting && !s.mainReady ==>
              Next(s, Failsafe(true)) == s.(mainReady := true, background := false)
    ensures s.quitting || s.mainReady ==> Next(s, Failsafe(true)) == s
    ensures Next(s, Failsafe(false)) == s
  {
  }

  /** A missing window is rebuilt once, in the background and not ready; it is there only if the build went well. */
  lemma ShowRebuilds(s: State)
    requires !s.hasMain
    ensures var shown := Next(s, Show);
            shown.building && !shown.hasMain && (!s.building ==> shown.background && !shown.mainReady)
            && (s.building ==> shown == s.(epoch := shown.epoch))
    ensures s.building ==> Next(s, MainBuilt(true)).hasMain && !Next(s, MainBuilt(true)).building
    ensures s.building ==> Next(s, MainBuilt(false)) == s.(building := false)
    ensures forall destroyed :: Next(s, HibernateMain(destroyed)) == s.(mainReady := false)
    ensures forall shown :: Next(s, FrontendReady(shown)) == s
    ensures forall shown :: Next(s, Failsafe(shown)) == s
  {
  }

  /** Closing to the tray enters the background; losing the window outside of it quits the process. */
  lemma ClosingHibernatesOrQuits(s: State, destroyed: bool)
    requires s.hasMain
    ensures Next(s, PrepareHibernate).background && Next(s, PrepareHibernate).hasMain
    ensures var gone := Next(s, HibernateMain(destroyed)); gone.background == destroyed && !gone.mainReady
    ensures var gone := Next(s, MainDestroyed);
            !gone.hasMain && (gone.quitting <==> s.quitting || !s.background)
            && gone.teardowns == s.teardowns + (if !s.quitting && !s.background then 1 else 0)
            && (s.background && !s.quitting ==> gone == Next(s.(hasMain := false), ScheduleCheck))
  {
  }

  /** A quit runs once, leaves the background and takes the process down. */
  lemma QuitIsFinal(s: State)
    ensures var once := Next(s, RequestQuit);
            && once.quitting && Next(once, RequestQuit) == once
            && (!s.quitting ==> !once.background && once.teardowns == s.teardowns + 1)
  {
  }

  /** The clock, the player and the mini window change nothing but themselves. */
  lemma OutsideChanges(s: State, to: int, on: bool)
    ensures Next(s, Tick(to)) == s.(now := to)
    ensures Next(s, PlayFlag(on)) == s.(playing := on)
    ensures Next(s, MiniOpened) == s.(hasMini := true)
    ensures Next(s, PlayEvent(true)) == s.(epoch := s.epoch + 1)
  {
  }
}
