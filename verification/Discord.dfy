/**
 The Discord presence scheduler (crates/core/src/discord.rs).

 Time is one integer clock in milliseconds; positions and lengths are milliseconds too. `State` is
 the abstract value of the owner thread's `Presence` object, and it also records every frame put on
 the socket (`wire`), so that claims about whole runs can be stated. The class `Presence` updates
 its fields the way the thread does and is proved to follow the functions on `State`.
 */
module Discord {
  import opened Common

  const CONNECT_RETRY_MIN := 1_000
  const CONNECT_RETRY_MAX := 120_000
  const IDLE_TICK := 300_000
  const SEEK_DRIFT := 2_000
  const SEND_FLOOR := 1_500
  const DURATION_GRACE := 800
  const MIN_WAIT := 10

  datatype Track = Track(videoId: string, title: string, artists: string)

  datatype Msg =
    | NewTrack(track: Track)
    | Duration(ms: int)
    | Position(pos: int, at: int)
    | Playing(on: bool)
    | Enabled(on: bool)
    | Name(name: string)

  datatype Sent = Sent(videoId: string, name: string, startMs: int, duration: int)

  /** One frame on the socket. `Goodbye` is the clear that `disconnect` sends before closing. */
  datatype Frame =
    | Card(at: int, track: Track, name: string, startMs: int, endMs: Option<int>)
    | Clear(at: int)
    | Goodbye(at: int)

  datatype Act = Idle | Wait(ms: int) | Push | TakeDown

  datatype State = State(
    enabled: bool,
    connected: bool,
    lastTry: Option<int>,
    backoff: int,
    name: string,
    track: Option<Track>,
    trackAt: int,
    duration: int,
    playing: bool,
    pos: int,
    posAt: int,
    sent: Option<Sent>,
    lastSend: Option<int>,
    wire: seq<Frame>)

  function New(enabled: bool, name: string, now: int): State {
    State(enabled, false, None, CONNECT_RETRY_MIN, name, None, now, 0, false, 0, now, None, None, [])
  }

  /** Elapsed time saturates at zero, like `Instant::elapsed`. */
  function Elapsed(since: int, now: int): int {
    Max(now - since, 0)
  }

  /** `limit.checked_sub(elapsed)`: absent once strictly more than `limit` has gone by. */
  function Remaining(limit: int, since: Option<int>, now: int): Option<int> {
    if since.Some? && Elapsed(since.value, now) <= limit
    then Some(limit - Elapsed(since.value, now))
    else None
  }

  // ---- queries ---------------------------------------------------------------------------------

  function Estimate(s: State, now: int): int {
    if s.playing then s.pos + Elapsed(s.posAt, now) else s.pos
  }

  /** How far the estimate is from the bar Discord is drawing. */
  function Drift(s: State, startMs: int, now: int): int {
    Estimate(s, now) - (now - startMs)
  }

  predicate WantsPush(s: State, now: int) {
    s.track.Some? &&
    (s.sent.None?
     || s.sent.value.videoId != s.track.value.videoId
     || s.sent.value.name != s.name
     || Abs(s.duration - s.sent.value.duration) > 1_000
     || Abs(Drift(s, s.sent.value.startMs, now)) > SEEK_DRIFT)
  }

  predicate IsNewCard(s: State) {
    s.sent.Some? && s.track.Some? ==> s.sent.value.videoId != s.track.value.videoId
  }

  predicate WantsCard(s: State) {
    s.playing && s.track.Some?
  }

  function GraceRemaining(s: State, now: int): Option<int> {
    if s.duration <= 0 && IsNewCard(s) then Remaining(DURATION_GRACE, Some(s.trackAt), now) else None
  }

  function Plan(s: State, now: int): Act {
    if !s.enabled then Idle
    else if WantsCard(s) && !WantsPush(s, now) then Idle
    else if WantsCard(s) && GraceRemaining(s, now).Some? then
      Wait(Max(GraceRemaining(s, now).value, MIN_WAIT))
    else if !WantsCard(s) && s.sent.None? then Idle
    else
      match Remaining(SEND_FLOOR, s.lastSend, now)
      case Some(rem) => Wait(Max(rem, MIN_WAIT))
      case None => if WantsCard(s) then Push else TakeDown
  }

  // ---- transitions -----------------------------------------------------------------------------

  function ClearShown(s: State, frame: Frame, ok: bool): State {
    if s.sent.None? then s
    else if !s.connected then s.(sent := None)
    else s.(sent := None, connected := ok, lastSend := Some(frame.at), wire := s.wire + [frame])
  }

  function Disconnect(s: State, now: int): State {
    ClearShown(s, Goodbye(now), true)
      .(connected := false, sent := None, lastTry := None, backoff := CONNECT_RETRY_MIN)
  }

  function ApplyMsg(s: State, msg: Msg, now: int): State {
    match msg
    case NewTrack(t) => s.(track := Some(t), trackAt := now, pos := 0, posAt := now, duration := 0)
    case Duration(ms) => s.(duration := ms)
    case Position(pos, at) => s.(pos := pos, posAt := at)
    case Playing(on) =>
      if s.playing == on then s
      else
        var folded := s.(pos := Estimate(s, now), posAt := now, playing := on);
        if on && s.enabled && !s.connected
        then folded.(lastTry := None, backoff := CONNECT_RETRY_MIN)
        else folded
    case Enabled(on) =>
      if s.enabled == on then s
      else if on then s.(enabled := true, lastTry := None)
      else Disconnect(s.(enabled := false), now)
    case Name(name) => s.(name := name)
  }

  function EnsureConnected(s: State, now: int, ok: bool): State {
    if s.connected || Remaining(s.backoff, s.lastTry, now).Some? then s
    else if ok then
      s.(lastTry := Some(now), connected := true, backoff := CONNECT_RETRY_MIN, sent := None)
    else
      s.(lastTry := Some(now), backoff := Min(s.backoff * 2, CONNECT_RETRY_MAX))
  }

  function CardOf(s: State, cardAt: int, sendAt: int): Frame
    requires s.track.Some?
  {
    var start := cardAt - Max(Estimate(s, cardAt), 0);
    Card(sendAt, s.track.value, s.name, start, if s.duration > 0 then Some(start + s.duration) else None)
  }

  function PushCard(s: State, cardAt: int, sendAt: int, ok: bool): State {
    if s.track.None? || !s.connected then s
    else
      var card := CardOf(s, cardAt, sendAt);
      s.(lastSend := Some(sendAt),
         wire := s.wire + [card],
         connected := ok,
         sent := if ok then Some(Sent(card.track.videoId, s.name, card.startMs, s.duration)) else None)
  }

  /** What one wake-up reads: the clock at each step, and how the socket answered. */
  datatype Answers = Answers(connectAt: int, connectOk: bool, planAt: int, retryAt: int, retryOk: bool,
                             cardAt: int, sendAt: int, frameOk: bool, endAt: int)
  {
    predicate Ordered() {
      connectAt <= planAt <= retryAt <= cardAt <= sendAt <= endAt
    }
  }

  function SyncAct(s: State, a: Answers): State {
    match Plan(s, a.planAt)
    case Idle => s
    case Wait(_) => s
    case Push =>
      var s' := EnsureConnected(s, a.retryAt, a.retryOk);
      if s'.connected then PushCard(s', a.cardAt, a.sendAt, a.frameOk) else s'
    case TakeDown => ClearShown(s, Clear(a.sendAt), a.frameOk)
  }

  function Sync(s: State, a: Answers): State {
    if s.enabled then SyncAct(EnsureConnected(s, a.connectAt, a.connectOk), a) else s
  }

  /** How long the thread sleeps after `Sync`. */
  function SyncWait(s: State, a: Answers): int {
    if !s.enabled then IDLE_TICK
    else
      var act := Plan(EnsureConnected(s, a.connectAt, a.connectOk), a.planAt);
      var wait := if act.Wait? then act.ms else IDLE_TICK;
      var s' := Sync(s, a);
      match Remaining(s'.backoff, s'.lastTry, a.endAt)
      case Some(rem) => if s'.connected then wait else Min(wait, Max(rem, MIN_WAIT))
      case None => wait
  }

  // ---- runs ------------------------------------------------------------------------------------

  /** The owner loop drains messages, sent and applied at two times, then syncs; a run allows any interleaving. */
  datatype Event = Recv(sent: int, now: int, msg: Msg) | Wake(answers: Answers)
  {
    function Start(): int { if Recv? then now else answers.connectAt }

    function End(): int { if Recv? then now else answers.endAt }

    /** Readings go forward, a message is sent before it arrives, and a position is read when it is sent. */
    predicate Ordered() {
      match this
      case Recv(sent, now, msg) => sent <= now && (msg.Position? ==> msg.at == sent)
      case Wake(answers) => answers.Ordered()
    }
  }

  function Step(s: State, e: Event): State {
    match e
    case Recv(_, now, msg) => ApplyMsg(s, msg, now)
    case Wake(answers) => Sync(s, answers)
  }

  function Run(s: State, h: seq<Event>): State {
    if h == [] then s else Step(Run(s, h[..|h| - 1]), h[|h| - 1])
  }

  /** The clock when a run that began at `t0` ends. */
  function EndOf(t0: int, h: seq<Event>): int {
    if h == [] then t0 else h[|h| - 1].End()
  }

  predicate Timely(t0: int, h: seq<Event>) {
    h != [] ==>
      Timely(t0, h[..|h| - 1]) &&
      h[|h| - 1].Ordered() &&
      EndOf(t0, h[..|h| - 1]) <= h[|h| - 1].Start()
  }

  lemma RunMore(s: State, t0: int, h: seq<Event>, e: Event)
    ensures Run(s, h + [e]) == Step(Run(s, h), e) && EndOf(t0, h + [e]) == e.End()
    ensures Timely(t0, h + [e]) <==> Timely(t0, h) && e.Ordered() && EndOf(t0, h) <= e.Start()
  {
    assert (h + [e])[..|h|] == h;
  }

  // ---- rate limiting ---------------------------------------------------------------------------

  /** Every frame but a goodbye goes out strictly more than the floor after the frame before it. */
  ghost predicate Spaced(wire: seq<Frame>) {
    forall i :: 0 < i < |wire| ==>
      wire[i].Goodbye? || wire[i].at > wire[i - 1].at + SEND_FLOOR
  }

  ghost predicate Invariant(s: State, now: int) {
    && (s.sent.Some? ==> s.connected && s.enabled)
    && (s.connected ==> s.enabled)
    && s.lastSend == (if s.wire == [] then None else Some(s.wire[|s.wire| - 1].at))
    && (s.lastSend.Some? ==> s.lastSend.value <= now)
    && s.posAt <= now
    && s.trackAt <= now
    && (s.lastTry.Some? ==> s.lastTry.value <= now)
    && CONNECT_RETRY_MIN <= s.backoff <= CONNECT_RETRY_MAX
    && Spaced(s.wire)
  }

  lemma SpacedAppend(wire: seq<Frame>, f: Frame)
    requires Spaced(wire)
    requires wire != [] ==> f.Goodbye? || f.at > wire[|wire| - 1].at + SEND_FLOOR
    ensures Spaced(wire + [f])
  {
  }

  lemma ApplyKeepsInvariant(s: State, msg: Msg, now: int)
    requires Invariant(s, now) && (msg.Position? ==> msg.at <= now)
    ensures Invariant(ApplyMsg(s, msg, now), now)
    ensures s.wire <= ApplyMsg(s, msg, now).wire
  {
    if msg == Enabled(false) {
      SpacedAppend(s.wire, Goodbye(now));
    }
  }

  lemma ConnectKeepsInvariant(s: State, now: int, ok: bool)
    requires Invariant(s, now) && s.enabled
    ensures Invariant(EnsureConnected(s, now, ok), now)
    ensures EnsureConnected(s, now, ok).wire == s.wire
  {
  }

  lemma PushKeepsInvariant(s: State, cardAt: int, sendAt: int, ok: bool)
    requires Invariant(s, sendAt) && s.enabled && s.track.Some?
    requires s.lastSend.Some? ==> sendAt > s.lastSend.value + SEND_FLOOR
    ensures Invariant(PushCard(s, cardAt, sendAt, ok), sendAt)
    ensures s.wire <= PushCard(s, cardAt, sendAt, ok).wire
  {
    SpacedAppend(s.wire, CardOf(s, cardAt, sendAt));
  }

  lemma InvariantLater(s: State, t: int, t': int)
    requires Invariant(s, t) && t <= t'
    ensures Invariant(s, t')
  {
  }

  lemma ClearKeepsInvariant(s: State, sendAt: int, ok: bool)
    requires Invariant(s, sendAt)
    requires s.lastSend.Some? ==> sendAt > s.lastSend.value + SEND_FLOOR
    ensures Invariant(ClearShown(s, Clear(sendAt), ok), sendAt)
    ensures s.wire <= ClearShown(s, Clear(sendAt), ok).wire
  {
    SpacedAppend(s.wire, Clear(sendAt));
  }

  lemma PlanPassesFloor(s: State, now: int)
    requires Plan(s, now).Push? || Plan(s, now).TakeDown?
    ensures s.enabled && (s.lastSend.Some? ==> now > s.lastSend.value + SEND_FLOOR)
    ensures Plan(s, now).Push? ==> s.track.Some? && s.playing && WantsPush(s, now)
    ensures Plan(s, now).TakeDown? ==> s.sent.Some? && !WantsCard(s)
  {
  }

  lemma PushArmKeepsInvariant(s: State, a: Answers)
    requires Invariant(s, a.planAt) && a.Ordered() && Plan(s, a.planAt) == Push
    ensures Invariant(SyncAct(s, a), a.sendAt)
    ensures s.wire <= SyncAct(s, a).wire
  {
    PlanPassesFloor(s, a.planAt);
    InvariantLater(s, a.planAt, a.retryAt);
    ConnectKeepsInvariant(s, a.retryAt, a.retryOk);
    var s' := EnsureConnected(s, a.retryAt, a.retryOk);
    InvariantLater(s', a.retryAt, a.sendAt);
    if s'.connected {
      PushKeepsInvariant(s', a.cardAt, a.sendAt, a.frameOk);
    }
  }

  lemma SyncActKeepsInvariant(s: State, a: Answers)
    requires Invariant(s, a.planAt) && a.Ordered()
    ensures Invariant(SyncAct(s, a), a.sendAt)
    ensures s.wire <= SyncAct(s, a).wire
  {
    match Plan(s, a.planAt)
    case Push => PushArmKeepsInvariant(s, a);
    case TakeDown =>
      PlanPassesFloor(s, a.planAt);
      InvariantLater(s, a.planAt, a.sendAt);
      ClearKeepsInvariant(s, a.sendAt, a.frameOk);
    case _ => InvariantLater(s, a.planAt, a.sendAt);
  }

  lemma SyncKeepsInvariant(s: State, now: int, a: Answers)
    requires Invariant(s, now) && a.Ordered() && now <= a.connectAt
    ensures Invariant(Sync(s, a), a.endAt)
    ensures s.wire <= Sync(s, a).wire
  {
    InvariantLater(s, now, a.connectAt);
    if s.enabled {
      ConnectKeepsInvariant(s, a.connectAt, a.connectOk);
      var s1 := EnsureConnected(s, a.connectAt, a.connectOk);
      InvariantLater(s1, a.connectAt, a.planAt);
      SyncActKeepsInvariant(s1, a);
      InvariantLater(SyncAct(s1, a), a.sendAt, a.endAt);
    } else {
      InvariantLater(s, a.connectAt, a.endAt);
    }
  }

  lemma StepKeepsInvariant(s: State, now: int, e: Event)
    requires Invariant(s, now) && e.Ordered() && now <= e.Start()
    ensures Invariant(Step(s, e), e.End())
    ensures s.wire <= Step(s, e).wire
  {
    match e
    case Recv(_, t, msg) =>
      InvariantLater(s, now, t);
      ApplyKeepsInvariant(s, msg, t);
    case Wake(a) => SyncKeepsInvariant(s, now, a);
  }

  /** Rate limiting over every run, and a recorded card always has its socket. */
  lemma {:induction false} RunsAreRateLimited(enabled: bool, name: string, t0: int, h: seq<Event>)
    requires Timely(t0, h)
    ensures Invariant(Run(New(enabled, name, t0), h), EndOf(t0, h))
  {
    if h != [] {
      var front := h[..|h| - 1];
      RunsAreRateLimited(enabled, name, t0, front);
      StepKeepsInvariant(Run(New(enabled, name, t0), front), EndOf(t0, front), h[|h| - 1]);
    }
  }

  /** A frame goes out only from the matching plan, and it carries the state current at that moment. */
  lemma SyncSendsCurrentState(s: State, a: Answers)
    requires s.sent.Some? ==> s.connected
    ensures
      var s1 := EnsureConnected(s, a.connectAt, a.connectOk);
      var s' := Sync(s, a);
      && (s'.wire != s.wire ==>
           s.enabled && s'.lastSend == Some(a.sendAt) &&
           ((WantsCard(s) && WantsPush(s1, a.planAt) && s'.wire == s.wire + [CardOf(s, a.cardAt, a.sendAt)]) ||
            (!WantsCard(s) && s.sent.Some? && s'.sent.None? && s'.wire == s.wire + [Clear(a.sendAt)])))
      && (s.enabled && s.connected ==>
           (s'.wire == s.wire <==> Plan(s, a.planAt).Idle? || Plan(s, a.planAt).Wait?))
  {
    var s1 := EnsureConnected(s, a.connectAt, a.connectOk);
    if s.enabled && Plan(s1, a.planAt) == Push {
      PlanPassesFloor(s1, a.planAt);
      var s2 := EnsureConnected(s1, a.retryAt, a.retryOk);
      assert s2.connected ==> CardOf(s2, a.cardAt, a.sendAt) == CardOf(s, a.cardAt, a.sendAt);
    }
  }

  // ---- no lost update --------------------------------------------------------------------------

  lemma PlanNeverForgets(s: State, t: int, t': int)
    requires s.posAt <= t <= t' && Plan(s, t).Wait?
    ensures !Plan(s, t').Idle?
  {
  }

  /** A countdown is over after two waits: one to its end, one for the instant of the end itself. */
  lemma CountdownTakesTwoWaits(limit: int, since: Option<int>, t0: int, t1: int, t2: int)
    requires since.Some? ==> since.value <= t0
    requires Remaining(limit, since, t0).Some? ==> t1 >= t0 + Max(Remaining(limit, since, t0).value, MIN_WAIT)
    requires Remaining(limit, since, t1).Some? ==> t2 >= t1 + Max(Remaining(limit, since, t1).value, MIN_WAIT)
    requires t0 <= t1 <= t2
    ensures Remaining(limit, since, t2).None?
  {
  }

  /** Each entry after the first is no earlier than the wait asked for at the entry before it. */
  ghost predicate FollowsWaits(s: State, ts: seq<int>) {
    forall k :: 0 <= k < |ts| - 1 ==> AfterWait(s, ts, k)
  }

  ghost predicate AfterWait(s: State, ts: seq<int>, k: nat)
    requires k + 1 < |ts|
  {
    Plan(s, ts[k]).Wait? && ts[k + 1] >= ts[k] + Plan(s, ts[k]).ms
  }

  /**
   With the socket held and no message, each entry of `ts` is a moment the plan is consulted, no
   earlier than the previous wait asked for. Four waits at most, and the pending frame then goes out.
   */
  lemma WaitsRunOut(s: State, ts: seq<int>)
    requires |ts| >= 2 && s.posAt <= ts[0] && s.trackAt <= ts[0]
    requires s.lastSend.Some? ==> s.lastSend.value <= ts[0]
    requires FollowsWaits(s, ts)
    ensures |ts| <= 5 && !Plan(s, ts[|ts| - 1]).Idle?
    ensures Plan(s, ts[|ts| - 1]).Wait? ==> |ts| <= 4
  {
    FollowingAdvances(s, ts, |ts| - 1);
    PlanNeverForgets(s, ts[|ts| - 2], ts[|ts| - 1]);
    if |ts| >= 5 {
      assert AfterWait(s, ts, 0) && AfterWait(s, ts, 1) && AfterWait(s, ts, 2) && AfterWait(s, ts, 3);
      assert |ts| > 5 ==> AfterWait(s, ts, 4);
      hide Plan;
      FiveWaitsNeverHappen(s, ts[0], ts[1], ts[2], ts[3], ts[4]);
    }
  }

  lemma {:induction false} FollowingAdvances(s: State, ts: seq<int>, k: nat)
    requires FollowsWaits(s, ts) && 1 <= k < |ts|
    ensures Plan(s, ts[k - 1]).Wait? && ts[0] <= ts[k - 1] <= ts[k]
  {
    assert AfterWait(s, ts, k - 1);
    if k > 1 {
      FollowingAdvances(s, ts, k - 1);
    }
  }

  lemma FiveWaitsNeverHappen(s: State, t0: int, t1: int, t2: int, t3: int, t4: int)
    requires s.trackAt <= t0 && (s.lastSend.Some? ==> s.lastSend.value <= t0)
    requires Plan(s, t0).Wait? && t1 >= t0 + Plan(s, t0).ms
    requires Plan(s, t1).Wait? && t2 >= t1 + Plan(s, t1).ms
    requires Plan(s, t2).Wait? && t3 >= t2 + Plan(s, t2).ms
    requires Plan(s, t3).Wait? && t4 >= t3 + Plan(s, t3).ms
    ensures !Plan(s, t4).Wait?
  {
    if GraceRemaining(s, t0).Some? {
      CountdownTakesTwoWaits(DURATION_GRACE, Some(s.trackAt), t0, t1, t2);
    }
    CountdownTakesTwoWaits(SEND_FLOOR, s.lastSend, t2, t3, t4);
  }

  lemma FourWaitTimes(s: State, t: int)
    requires s.enabled && s.connected && WantsCard(s) && s.sent.None? && t >= 0
    requires s.trackAt == 0 && s.duration <= 0 && s.lastSend == Some(-600)
    ensures Plan(s, t) == if t <= 900 then Wait(Max((if t <= 800 then 800 else 900) - t, MIN_WAIT)) else Push
  {
  }

  lemma FollowsFour(s: State, t0: int, t1: int, t2: int, t3: int, t4: int)
    requires Plan(s, t0).Wait? && t1 >= t0 + Plan(s, t0).ms
    requires Plan(s, t1).Wait? && t2 >= t1 + Plan(s, t1).ms
    requires Plan(s, t2).Wait? && t3 >= t2 + Plan(s, t2).ms
    requires Plan(s, t3).Wait? && t4 >= t3 + Plan(s, t3).ms
    ensures FollowsWaits(s, [t0, t1, t2, t3, t4])
  {
    hide Plan;
    var ts := [t0, t1, t2, t3, t4];
    assert AfterWait(s, ts, 0) && AfterWait(s, ts, 1) && AfterWait(s, ts, 2) && AfterWait(s, ts, 3);
  }

  /** The bound is met: a new card of unknown length, 600 ms after the previous frame, waits four times. */
  lemma FourWaitsHappen(s: State)
    requires s.enabled && s.connected && WantsCard(s) && s.sent.None?
    requires s.trackAt == 0 && s.duration <= 0 && s.lastSend == Some(-600)
    ensures FollowsWaits(s, [0, 800, 810, 900, 910]) && Plan(s, 910) == Push
  {
    hide Plan, FollowsWaits;
    FourWaitTimes(s, 0);
    FourWaitTimes(s, 800);
    FourWaitTimes(s, 810);
    FourWaitTimes(s, 900);
    FourWaitTimes(s, 910);
    FollowsFour(s, 0, 800, 810, 900, 910);
  }

  /** While the plan waits and the socket is held, a wake-up changes nothing and sleeps exactly as asked. */
  lemma WaitingKeepsState(s: State, a: Answers)
    requires s.enabled && s.connected && Plan(s, a.planAt).Wait?
    ensures Sync(s, a) == s && SyncWait(s, a) == Plan(s, a.planAt).ms
  {
  }

  function Wakes(ws: seq<Answers>): seq<Event> {
    seq(|ws|, i requires 0 <= i < |ws| => Wake(ws[i]))
  }

  /** Wake-ups alone: each follows the one before it after at least the sleep that one asked for. */
  ghost predicate Sleeping(s: State, ws: seq<Answers>) {
    && (forall k :: 0 <= k < |ws| ==> ws[k].Ordered())
    && (forall k :: 0 <= k < |ws| - 1 ==>
          ws[k + 1].connectAt >= ws[k].endAt + SyncWait(Run(s, Wakes(ws[..k])), ws[k]))
  }

  /** What a wake-up with answers `a` puts on the wire when a frame is due. */
  function DueFrame(s: State, a: Answers): Frame {
    if WantsCard(s) then CardOf(s, a.cardAt, a.sendAt) else Clear(a.sendAt)
  }

  /**
   A deferred update is never lost. When the socket is held and a wake-up defers, the state stays as
   it is through the next wake-ups until, at the fifth at the latest, its frame goes out.
   */
  lemma DeferredFrameGoesOut(s: State, now: int, ws: seq<Answers>) returns (n: nat)
    requires Invariant(s, now) && s.connected && |ws| == 5 && Sleeping(s, ws) && now <= ws[0].connectAt
    requires Plan(s, ws[0].planAt).Wait?
    ensures 1 <= n <= 4 && Run(s, Wakes(ws[..n])) == s
    ensures Run(s, Wakes(ws[..n + 1])).wire == s.wire + [DueFrame(s, ws[n])]
  {
    assert s.enabled && (s.sent.Some? ==> s.connected);
    assert s.posAt <= ws[0].planAt && s.trackAt <= ws[0].planAt;
    assert s.lastSend.Some? ==> s.lastSend.value <= ws[0].planAt;
    hide Plan, Sync, SyncWait, Run, EnsureConnected, Wakes, Invariant, WantsPush, CardOf;
    hide Sleeping, FollowsWaits, PlanTimes;
    n := 1;
    while n < 4 && Plan(s, ws[n].planAt).Wait?
      invariant 1 <= n <= 4 && forall k :: 0 <= k < n ==> Plan(s, ws[k].planAt).Wait?
    {
      n := n + 1;
    }
    WaitsFollow(s, ws, n);
    WaitsRunOut(s, PlanTimes(ws, n));
    hide DueFrame;
    WaitingRun(s, ws, n);
    FrameGoesOut(s, ws, n);
  }

  lemma FrameGoesOut(s: State, ws: seq<Answers>, n: nat)
    requires n < |ws| && Run(s, Wakes(ws[..n])) == s && s.enabled && s.connected
    requires Plan(s, ws[n].planAt).Push? || Plan(s, ws[n].planAt).TakeDown?
    ensures Run(s, Wakes(ws[..n + 1])).wire == s.wire + [DueFrame(s, ws[n])]
  {
    RunWake(s, ws, n);
    SyncSendsCurrentState(s, ws[n]);
    hide Run, Wakes, Sync, Plan, EnsureConnected, CardOf, WantsPush;
  }

  function PlanTimes(ws: seq<Answers>, n: nat): (ts: seq<int>)
    requires n < |ws|
    ensures |ts| == n + 1 && forall k :: 0 <= k <= n ==> ts[k] == ws[k].planAt
  {
    seq(n + 1, i requires 0 <= i <= n => ws[i].planAt)
  }

  lemma WaitsFollow(s: State, ws: seq<Answers>, n: nat)
    requires Sleeping(s, ws) && n < |ws| && s.enabled && s.connected
    requires forall k :: 0 <= k < n ==> Plan(s, ws[k].planAt).Wait?
    ensures FollowsWaits(s, PlanTimes(ws, n))
  {
    hide Plan, Run, Wakes, Sleeping, PlanTimes;
    var ts := PlanTimes(ws, n);
    forall k | 0 <= k < n ensures AfterWait(s, ts, k) {
      WaitingRun(s, ws, k);
      SleepsFollow(s, ws, k);
    }
  }

  lemma SleepsFollow(s: State, ws: seq<Answers>, k: nat)
    requires Sleeping(s, ws) && k + 1 < |ws| && Run(s, Wakes(ws[..k])) == s
    requires s.enabled && s.connected && Plan(s, ws[k].planAt).Wait?
    ensures ws[k + 1].planAt >= ws[k].planAt + Plan(s, ws[k].planAt).ms
  {
    WaitingKeepsState(s, ws[k]);
    hide Plan, Sync, SyncWait, Run, Wakes;
    assert ws[k].Ordered() && ws[k + 1].Ordered();
  }

  lemma RunWake(s: State, ws: seq<Answers>, n: nat)
    requires n < |ws|
    ensures Run(s, Wakes(ws[..n + 1])) == Sync(Run(s, Wakes(ws[..n])), ws[n])
  {
    var h := Wakes(ws[..n + 1]);
    assert h[..n] == Wakes(ws[..n]) && h[n] == Wake(ws[n]);
  }

  lemma {:induction false} WaitingRun(s: State, ws: seq<Answers>, n: nat)
    requires s.enabled && s.connected && n <= |ws|
    requires forall k :: 0 <= k < n ==> Plan(s, ws[k].planAt).Wait?
    ensures Run(s, Wakes(ws[..n])) == s
  {
    if n > 0 {
      WaitingRun(s, ws, n - 1);
      RunWake(s, ws, n - 1);
      WaitingKeepsState(s, ws[n - 1]);
    }
  }

  /** The thread never spins: every sleep is at least `MIN_WAIT`, and none is longer than the idle tick. */
  lemma SleepsAreBounded(s: State, now: int, a: Answers)
    requires Invariant(s, now) && a.Ordered() && now <= a.connectAt
    ensures MIN_WAIT <= SyncWait(s, a) <= IDLE_TICK
  {
    SyncKeepsInvariant(s, now, a);
  }

  /**
   After a push breaks the socket the sleep is the whole idle tick, unless the last connect attempt
   is still inside its backoff: only then does the retry timer shorten it.
   */
  lemma BrokenPushSleep(s: State, now: int, a: Answers)
    requires Invariant(s, now) && a.Ordered() && now <= a.connectAt && s.enabled
    requires var s1 := EnsureConnected(s, a.connectAt, a.connectOk);
             Plan(s1, a.planAt) == Push && EnsureConnected(s1, a.retryAt, a.retryOk).connected && !a.frameOk
    ensures var s1, s' := EnsureConnected(s, a.connectAt, a.connectOk), Sync(s, a);
            var held := EnsureConnected(s1, a.retryAt, a.retryOk);
            !s'.connected && s'.sent.None? &&
            (SyncWait(s, a) == IDLE_TICK <==> Remaining(held.backoff, held.lastTry, a.endAt).None?)
  {
    var s1 := EnsureConnected(s, a.connectAt, a.connectOk);
    InvariantLater(s, now, a.connectAt);
    ConnectKeepsInvariant(s, a.connectAt, a.connectOk);
    InvariantLater(s1, a.connectAt, a.retryAt);
    ConnectKeepsInvariant(s1, a.retryAt, a.retryOk);
    PlanPassesFloor(s1, a.planAt);
  }

  /** A song starts: the burst of messages a track change sends. */
  function SongStarts(track: Track, at: int): seq<Event> {
    [Recv(at, at, NewTrack(track))] + [Recv(at, at, Duration(200_000))] + [Recv(at, at, Playing(true))]
  }

  lemma RunSongStarts(s: State, t0: int, h: seq<Event>, track: Track, at: int)
    requires Timely(t0, h) && EndOf(t0, h) <= at && !Run(s, h).playing
    ensures var s', h' := Run(s, h), h + SongStarts(track, at);
            && Timely(t0, h') && EndOf(t0, h') == at
            && Run(s, h') ==
                 (if s'.enabled && !s'.connected then s'.(lastTry := None, backoff := CONNECT_RETRY_MIN) else s')
                 .(track := Some(track), trackAt := at, pos := 0, posAt := at, duration := 200_000, playing := true)
  {
    var e1, e2, e3 := Recv(at, at, NewTrack(track)), Recv(at, at, Duration(200_000)), Recv(at, at, Playing(true));
    RunMore(s, t0, h, e1);
    RunMore(s, t0, h + [e1], e2);
    RunMore(s, t0, h + [e1] + [e2], e3);
    hide Run, Timely, EndOf;
    assert h + SongStarts(track, at) == h + [e1] + [e2] + [e3];
  }

  /** A socket that connected long ago and breaks on the first card: the thread sleeps the whole idle tick. */
  lemma BrokenPushSleepsLong(name: string, track: Track)
    ensures var h := [Wake(Answers(0, true, 0, 0, true, 0, 0, true, 0))] + SongStarts(track, 5_000);
            var s := Run(New(true, name, 0), h);
            var a := Answers(5_000, true, 5_000, 5_000, true, 5_000, 5_000, false, 5_000);
            && Timely(0, h + [Wake(a)]) && Plan(s, a.planAt) == Push
            && !Sync(s, a).connected && WantsCard(Sync(s, a)) && SyncWait(s, a) == IDLE_TICK
  {
    var first := Wake(Answers(0, true, 0, 0, true, 0, 0, true, 0));
    var a := Answers(5_000, true, 5_000, 5_000, true, 5_000, 5_000, false, 5_000);
    var s0 := New(true, name, 0);
    assert Step(s0, first) == s0.(connected := true, lastTry := Some(0));
    assert Run(s0, []) == s0 && Timely(0, []) && EndOf(0, []) == 0;
    hide Run, Timely, EndOf, Step, SongStarts;
    assert [] + [first] == [first];
    RunMore(s0, 0, [], first);
    RunSongStarts(s0, 0, [first], track, 5_000);
    RunMore(s0, 0, [first] + SongStarts(track, 5_000), Wake(a));
  }

  // ---- settling and steady playback ------------------------------------------------------------

  /** A card is up for the current track and the plan has nothing to add to it. */
  ghost predicate Steady(s: State, now: int) {
    s.enabled && s.connected && WantsCard(s) && s.sent.Some? && s.posAt <= now && !WantsPush(s, now)
  }

  /**
   A successful push settles exactly when the estimate it was built from is not more than
   `SEEK_DRIFT` below zero: the bar's start is clamped at position zero, the drift test is not.
   */
  lemma PushSettles(s: State, cardAt: int, sendAt: int, t: int)
    requires s.enabled && s.connected && WantsCard(s) && s.posAt <= cardAt <= sendAt <= t
    ensures var s' := PushCard(s, cardAt, sendAt, true);
            && (Steady(s', t) <==> Estimate(s, cardAt) >= -SEEK_DRIFT)
            && (Plan(s', t).Idle? <==> Estimate(s, cardAt) >= -SEEK_DRIFT)
  {
  }

  /** A reachable run whose push never settles: a tick of minus nine seconds, as a player may report it. */
  lemma PushNeverSettles(name: string, track: Track, t: int)
    requires t >= 5_000
    ensures var a := Answers(5_000, true, 5_000, 5_000, true, 5_000, 5_000, true, 5_000);
            var h := SongStarts(track, 0) + [Recv(5_000, 5_000, Position(-9_000, 5_000))] + [Wake(a)];
            var s := Run(New(true, name, 0), h);
            Timely(0, h) && s.sent.Some? && s.connected && !Plan(s, t).Idle?
  {
    var a := Answers(5_000, true, 5_000, 5_000, true, 5_000, 5_000, true, 5_000);
    var tick := Recv(5_000, 5_000, Position(-9_000, 5_000));
    var s0 := New(true, name, 0);
    assert Run(s0, []) == s0 && Timely(0, []) && EndOf(0, []) == 0;
    hide Run, Timely, EndOf, SongStarts, Plan, Sync;
    var h := SongStarts(track, 0);
    assert [] + h == h;
    RunSongStarts(s0, 0, [], track, 0);
    RunMore(s0, 0, h, tick);
    RunMore(s0, 0, h + [tick], Wake(a));
    NegativePushRepeats(Run(s0, h + [tick]), a, t);
  }

  lemma NegativePushRepeats(s: State, a: Answers, t: int)
    requires s.enabled && !s.connected && WantsCard(s) && s.sent.None? && s.lastTry.None? && s.lastSend.None?
    requires s.duration > 0 && s.posAt == a.connectAt && s.pos < -SEEK_DRIFT
    requires a.connectOk && a.frameOk && a.planAt == a.connectAt && a.cardAt == a.connectAt && a.sendAt == a.connectAt
    requires t >= a.sendAt
    ensures Sync(s, a).sent.Some? && Sync(s, a).connected && !Plan(Sync(s, a), t).Idle?
  {
    var s1 := EnsureConnected(s, a.connectAt, true);
    assert Plan(s1, a.planAt) == Push && Sync(s, a) == PushCard(s1, a.cardAt, a.sendAt, true);
    PushSettles(s1, a.cardAt, a.sendAt, t);
  }

  /** While playing, the drift against a pushed bar is fixed by the anchor alone. */
  lemma DriftIsTimeless(s: State, start: int, t: int)
    requires s.playing && s.posAt <= t
    ensures Drift(s, start, t) == s.pos - (s.posAt - start)
  {
  }

  /** Wake-ups, and positions within `SEEK_DRIFT` of the bar at the moment they were read. */
  predicate OnTimeline(start: int, e: Event) {
    match e
    case Recv(_, _, Position(pos, at)) => Abs(pos - (at - start)) <= SEEK_DRIFT
    case Recv(_, _, _) => false
    case Wake(_) => true
  }

  /** Steady playback is silent: no run of wake-ups and on-timeline ticks, however late, sends a frame. */
  lemma {:induction false} SteadyRunsAreSilent(s: State, t0: int, h: seq<Event>)
    requires Steady(s, t0) && Timely(t0, h)
    requires forall i :: 0 <= i < |h| ==> OnTimeline(s.sent.value.startMs, h[i])
    ensures var s' := Run(s, h);
            Steady(s', EndOf(t0, h)) && s'.wire == s.wire && s'.sent == s.sent
  {
    if h != [] {
      var front, e := h[..|h| - 1], h[|h| - 1];
      SteadyRunsAreSilent(s, t0, front);
      assert OnTimeline(s.sent.value.startMs, e);
    }
  }

  /** A tick read off the timeline always leaves a frame due, whenever it arrives. */
  lemma SeekIsNoticed(s: State, t0: int, now: int, pos: int, at: int, t: int)
    requires Steady(s, t0) && t0 <= now <= t && at <= now
    ensures Plan(ApplyMsg(s, Position(pos, at), now), t).Idle?
            <==> Abs(pos - (at - s.sent.value.startMs)) <= SEEK_DRIFT
  {
  }

  // ---- the position estimate -------------------------------------------------------------------

  /** When the last message was sent. */
  function LastSent(t0: int, h: seq<Event>): int {
    if h == [] then t0
    else if h[|h| - 1].Recv? then h[|h| - 1].sent
    else LastSent(t0, h[..|h| - 1])
  }

  /** The channel delivers messages in the order they were sent. */
  predicate InOrder(t0: int, h: seq<Event>) {
    h != [] ==>
      var front, last := h[..|h| - 1], h[|h| - 1];
      InOrder(t0, front) && (last.Recv? ==> LastSent(t0, front) <= last.sent)
  }

  lemma {:induction false} SentByEnd(t0: int, h: seq<Event>)
    requires Timely(t0, h) && InOrder(t0, h)
    ensures t0 <= LastSent(t0, h) <= EndOf(t0, h)
  {
    if h != [] {
      SentByEnd(t0, h[..|h| - 1]);
    }
  }

  /** The play flag a run leaves: the last one sent. */
  function Flag(h: seq<Event>): bool {
    if h == [] then false
    else
      match h[|h| - 1]
      case Recv(_, _, Playing(on)) => on
      case _ => Flag(h[..|h| - 1])
  }

  /** The last position anchored: a tick's value, or zero for a new track. */
  function AnchorPos(h: seq<Event>): int {
    if h == [] then 0
    else
      match h[|h| - 1]
      case Recv(_, _, NewTrack(_)) => 0
      case Recv(_, _, Position(pos, _)) => pos
      case _ => AnchorPos(h[..|h| - 1])
  }

  /** When the anchor was true: the message that set it was sent then. */
  function AnchorSent(t0: int, h: seq<Event>): int {
    if h == [] then t0
    else
      match h[|h| - 1]
      case Recv(sent, _, NewTrack(_)) => sent
      case Recv(sent, _, Position(_, _)) => sent
      case _ => AnchorSent(t0, h[..|h| - 1])
  }

  /** How much was played between two clock values: the flag holds from the moment it is sent. */
  function Played(h: seq<Event>, a: int, b: int): int {
    if h == [] then 0
    else
      var front := h[..|h| - 1];
      match h[|h| - 1]
      case Recv(sent, _, Playing(on)) =>
        Played(front, Min(a, sent), Min(b, sent)) + (if on then Max(b, sent) - Max(a, sent) else 0)
      case _ => Played(front, a, b)
  }

  lemma {:induction false} PlayedIsBounded(h: seq<Event>, a: int, b: int)
    requires a <= b
    ensures 0 <= Played(h, a, b) <= b - a
  {
    if h != [] {
      PlayedIsBounded(h[..|h| - 1], a, b);
      if h[|h| - 1].Recv? {
        PlayedIsBounded(h[..|h| - 1], Min(a, h[|h| - 1].sent), Min(b, h[|h| - 1].sent));
      }
    }
  }

  /** Past the last message the flag stays as it is, and time played adds up. */
  lemma {:induction false} PlayedSplits(t0: int, h: seq<Event>, a: int, t: int, t': int)
    requires InOrder(t0, h) && LastSent(t0, h) <= t <= t' && a <= t
    ensures Played(h, a, t') == Played(h, a, t) + (if Flag(h) then t' - t else 0)
    ensures Played(h, t, t') == if Flag(h) then t' - t else 0
  {
    if h != [] {
      var front, last := h[..|h| - 1], h[|h| - 1];
      if last.Recv? && last.msg.Playing? {
        PlayedIsBounded(front, last.sent, last.sent);
      } else {
        PlayedSplits(t0, front, a, t, t');
      }
    }
  }

  /**
   How far the thread is ahead of what was played. A tick carries its own clock reading and settles the
   account; a track change, a pause and a resume count from the moment they are applied.
   */
  function Lag(h: seq<Event>): int {
    if h == [] then 0
    else
      var front := h[..|h| - 1];
      match h[|h| - 1]
      case Recv(_, _, Position(_, _)) => 0
      case Recv(sent, now, NewTrack(_)) => if Flag(front) then sent - now else 0
      case Recv(sent, now, Playing(on)) =>
        Lag(front) + (if on == Flag(front) then 0 else if on then sent - now else now - sent)
      case _ => Lag(front)
  }

  /** After any run, the estimate is the last anchor plus the time played since it was sent, plus the lag. */
  lemma {:induction false} EstimateIsAnchored(enabled: bool, name: string, t0: int, h: seq<Event>, t: int)
    requires Timely(t0, h) && InOrder(t0, h) && EndOf(t0, h) <= t
    ensures var s := Run(New(enabled, name, t0), h);
            && s.playing == Flag(h) && s.posAt <= t && AnchorSent(t0, h) <= LastSent(t0, h)
            && Estimate(s, t) == AnchorPos(h) + Played(h, AnchorSent(t0, h), t) + Lag(h)
  {
    if h != [] {
      var front, e := h[..|h| - 1], h[|h| - 1];
      var s := Run(New(enabled, name, t0), front);
      EstimateIsAnchored(enabled, name, t0, front, t);
      hide Estimate;
      match e
      case Wake(a) =>
        SyncKeepsAnchor(s, a);
      case Recv(sent, now, msg) =>
        EstimateIsAnchored(enabled, name, t0, front, now);
        ApplyMovesEstimate(s, msg, now, t);
        SentByEnd(t0, front);
        AnchorMoves(t0, front, sent, now, msg, t);
    }
  }

  /** What one more message does to anchor, time played and lag. */
  lemma AnchorMoves(t0: int, h: seq<Event>, sent: int, now: int, msg: Msg, t: int)
    requires InOrder(t0, h) && LastSent(t0, h) <= sent <= now <= t && AnchorSent(t0, h) <= sent
    requires msg.Position? ==> msg.at == sent
    ensures var h' := h + [Recv(sent, now, msg)];
            AnchorSent(t0, h') <= sent &&
            AnchorPos(h') + Played(h', AnchorSent(t0, h'), t) + Lag(h') ==
              match msg
              case NewTrack(_) => if Flag(h) then t - now else 0
              case Position(pos, at) => pos + (if Flag(h) then t - at else 0)
              case Playing(on) =>
                AnchorPos(h) + Played(h, AnchorSent(t0, h), now) + Lag(h) + (if on then t - now else 0)
              case _ => AnchorPos(h) + Played(h, AnchorSent(t0, h), t) + Lag(h)
  {
    var h' := h + [Recv(sent, now, msg)];
    assert h'[..|h'| - 1] == h;
    match msg {
      case NewTrack(_) => PlayedSplits(t0, h, sent, sent, t);
      case Position(_, _) => PlayedSplits(t0, h, sent, sent, t);
      case Playing(_) => PlayedSplits(t0, h, AnchorSent(t0, h), sent, now);
      case _ =>
    }
  }

  /** So the estimate is the time played exactly when the messages since the last tick have not lagged. */
  lemma EstimateIsTimePlayed(enabled: bool, name: string, t0: int, h: seq<Event>, t: int)
    requires Timely(t0, h) && InOrder(t0, h) && EndOf(t0, h) <= t
    ensures Estimate(Run(New(enabled, name, t0), h), t) == AnchorPos(h) + Played(h, AnchorSent(t0, h), t)
            <==> Lag(h) == 0
  {
    EstimateIsAnchored(enabled, name, t0, h, t);
  }

  /** A tick is right however late it is delivered: from it on, the estimate is the time played. */
  lemma TickIsExact(enabled: bool, name: string, t0: int, h: seq<Event>, sent: int, now: int, pos: int, t: int)
    requires var all := h + [Recv(sent, now, Position(pos, sent))]; Timely(t0, all) && InOrder(t0, all)
    requires now <= t
    ensures var all := h + [Recv(sent, now, Position(pos, sent))];
            Estimate(Run(New(enabled, name, t0), all), t) == pos + Played(all, sent, t)
  {
    var all := h + [Recv(sent, now, Position(pos, sent))];
    EstimateIsAnchored(enabled, name, t0, all, t);
    assert all[..|all| - 1] == h;
  }

  /** Only a track change, a pause or a resume applied after it was sent can make the account lag again. */
  lemma {:induction false} PromptMessagesKeepLag(h: seq<Event>, more: seq<Event>)
    requires forall i :: 0 <= i < |more| && more[i].Recv? && (more[i].msg.NewTrack? || more[i].msg.Playing?) ==>
               more[i].sent == more[i].now
    ensures Lag(h) == 0 ==> Lag(h + more) == 0
  {
    if more == [] {
      assert h + more == h;
    } else {
      var front, last := more[..|more| - 1], more[|more| - 1];
      PromptMessagesKeepLag(h, front);
      assert (h + more)[..|h + more| - 1] == h + front && (h + more)[|h + more| - 1] == last;
    }
  }

  /** The socket stalls for twenty seconds; a pause sent meanwhile is applied ten seconds late. */
  lemma LatePauseCountsAsPlayed(name: string, track: Track)
    ensures var stall := Wake(Answers(0, true, 0, 0, true, 0, 0, true, 20_000));
            var h := SongStarts(track, 0) + [stall] + [Recv(10_000, 20_000, Playing(false))];
            && Timely(0, h) && InOrder(0, h) && AnchorPos(h) == 0 && Lag(h) == 10_000
            && Played(h, AnchorSent(0, h), 20_000) == 10_000
            && Estimate(Run(New(true, name, 0), h), 20_000) == 20_000
  {
    var stall := Wake(Answers(0, true, 0, 0, true, 0, 0, true, 20_000));
    var pause := Recv(10_000, 20_000, Playing(false));
    var s0 := New(true, name, 0);
    var h1 := SongStarts(track, 0);
    var h2 := h1 + [stall];
    var h := h2 + [pause];
    assert Run(s0, []) == s0 && Timely(0, []) && EndOf(0, []) == 0 && [] + h1 == h1;
    SongStartsPlayed(track);
    assert h2[..|h1|] == h1 && h[..|h2|] == h2;
    assert Flag(h2) && Played(h2, 0, 10_000) == 10_000 && Lag(h2) == 0 && AnchorPos(h2) == 0 && AnchorSent(0, h2) == 0;
    assert Played(h, 0, 20_000) == 10_000 && Lag(h) == 10_000 && AnchorPos(h) == 0 && AnchorSent(0, h) == 0;
    assert InOrder(0, h2) && InOrder(0, h);
    hide Run, Timely, EndOf, Sync, SongStarts, Played, Lag, AnchorPos, AnchorSent, InOrder, Flag;
    RunSongStarts(s0, 0, [], track, 0);
    RunMore(s0, 0, h1, stall);
    RunMore(s0, 0, h2, pause);
    EstimateIsAnchored(true, name, 0, h, 20_000);
  }

  lemma SongStartsPlayed(track: Track)
    ensures var h := SongStarts(track, 0);
            && Flag(h) && Played(h, 0, 10_000) == 10_000 && Lag(h) == 0 && AnchorPos(h) == 0
            && AnchorSent(0, h) == 0 && InOrder(0, h) && LastSent(0, h) == 0
  {
    var e1, e2, e3 := Recv(0, 0, NewTrack(track)), Recv(0, 0, Duration(200_000)), Recv(0, 0, Playing(true));
    var h1: seq<Event> := [e1];
    var h2, h := h1 + [e2], SongStarts(track, 0);
    assert h == h2 + [e3];
    assert h1[..0] == [] && h2[..|h2| - 1] == h1 && h[..|h| - 1] == h2;
    assert InOrder(0, []) && InOrder(0, h1);
    assert AnchorPos(h1) == 0 && AnchorSent(0, h1) == 0 && Lag(h1) == 0 && !Flag(h1);
    assert InOrder(0, h2);
    assert AnchorPos(h2) == 0 && AnchorSent(0, h2) == 0 && Lag(h2) == 0 && !Flag(h2);
    PlayedIsBounded(h2, 0, 0);
  }

  ghost predicate SameAnchor(s: State, s': State) {
    s'.playing == s.playing && s'.pos == s.pos && s'.posAt == s.posAt
  }

  lemma SyncKeepsAnchor(s: State, a: Answers)
    ensures SameAnchor(s, Sync(s, a))
  {
    var s1 := EnsureConnected(s, a.connectAt, a.connectOk);
    ConnectKeepsAnchor(s, a.connectAt, a.connectOk);
    ConnectKeepsAnchor(s1, a.retryAt, a.retryOk);
    hide EnsureConnected, Plan, CardOf;
  }

  lemma ConnectKeepsAnchor(s: State, now: int, ok: bool)
    ensures SameAnchor(s, EnsureConnected(s, now, ok))
  {
  }

  lemma ApplyMovesEstimate(s: State, msg: Msg, now: int, t: int)
    requires s.posAt <= now <= t && (msg.Position? ==> msg.at <= now)
    ensures var s' := ApplyMsg(s, msg, now);
            && s'.posAt <= now
            && s'.playing == (if msg.Playing? then msg.on else s.playing)
            && Estimate(s', t) ==
               match msg
               case NewTrack(_) => if s.playing then t - now else 0
               case Position(pos, at) => pos + (if s.playing then t - at else 0)
               case Playing(on) => Estimate(s, now) + (if on then t - now else 0)
               case _ => Estimate(s, t)
  {
  }

  /** Pausing and resuming never move the estimate. */
  lemma FlipIsContinuous(s: State, on: bool, now: int)
    requires s.posAt <= now
    ensures Estimate(ApplyMsg(s, Playing(on), now), now) == Estimate(s, now)
  {
  }

  // ---- the owner thread's object ---------------------------------------------------------------

  class Presence {
    var enabled: bool
    var connected: bool
    var lastConnectTry: Option<int>
    var connectBackoff: int
    var name: string
    var track: Option<Track>
    var trackAt: int
    var duration: int
    var playing: bool
    var pos: int
    var posAt: int
    var sent: Option<Sent>
    var lastSend: Option<int>
    ghost var wire: seq<Frame>

    ghost function View(): State
      reads this
    {
      State(enabled, connected, lastConnectTry, connectBackoff, name, track, trackAt, duration,
            playing, pos, posAt, sent, lastSend, wire)
    }

    constructor (enabled: bool, name: string, now: int)
      ensures View() == New(enabled, name, now)
    {
      this.enabled, this.name := enabled, name;
      connected, lastConnectTry, connectBackoff := false, None, CONNECT_RETRY_MIN;
      track, trackAt, duration := None, now, 0;
      playing, pos, posAt := false, 0, now;
      sent, lastSend, wire := None, None, [];
    }

    method GetEstimate(now: int) returns (p: int)
      ensures p == Estimate(View(), now)
    {
      p := pos;
      if playing {
        p := p + Elapsed(posAt, now);
      }
    }

    method Apply(msg: Msg, now: int)
      modifies this
      ensures View() == ApplyMsg(old(View()), msg, now)
    {
      match msg
      case NewTrack(t) =>
        track, trackAt := Some(t), now;
        pos, posAt := 0, now;
        duration := 0;
      case Duration(ms) => duration := ms;
      case Position(p, at) => pos, posAt := p, at;
      case Playing(on) =>
        if playing != on {
          pos := GetEstimate(now);
          posAt := now;
          playing := on;
          if on && enabled && !connected {
            lastConnectTry, connectBackoff := None, CONNECT_RETRY_MIN;
          }
        }
      case Enabled(on) =>
        if enabled != on {
          enabled := on;
          if !on {
            CloseSocket(now);
          } else {
            lastConnectTry := None;
          }
        }
      case Name(n) => name := n;
    }

    method TryConnect(now: int, ok: bool) returns (up: bool)
      modifies this
      ensures View() == EnsureConnected(old(View()), now, ok) && up == connected
    {
      if connected {
        return true;
      }
      if Remaining(connectBackoff, lastConnectTry, now).Some? {
        return false;
      }
      lastConnectTry := Some(now);
      if ok {
        connected, connectBackoff, sent := true, CONNECT_RETRY_MIN, None;
      } else {
        connectBackoff := Min(connectBackoff * 2, CONNECT_RETRY_MAX);
      }
      up := ok;
    }

    method SendCard(cardAt: int, sendAt: int, ok: bool)
      modifies this
      ensures View() == PushCard(old(View()), cardAt, sendAt, ok)
    {
      if track.None? || !connected {
        return;
      }
      connected := false;
      var p := GetEstimate(cardAt);
      var startMs := cardAt - Max(p, 0);
      wire := wire + [CardOf(View(), cardAt, sendAt)];
      lastSend := Some(sendAt);
      if ok {
        sent := Some(Sent(track.value.videoId, name, startMs, duration));
        connected := true;
      } else {
        sent := None;
      }
    }

    method ClearCard(ghost frame: Frame, now: int, ok: bool)
      requires frame.at == now
      modifies this
      ensures View() == ClearShown(old(View()), frame, ok)
    {
      if sent.None? {
        return;
      }
      sent := None;
      if connected {
        lastSend := Some(now);
        wire := wire + [frame];
        connected := ok;
      }
    }

    method CloseSocket(now: int)
      modifies this
      ensures View() == Disconnect(old(View()), now)
    {
      ClearCard(Goodbye(now), now, true);
      connected, sent := false, None;
      lastConnectTry, connectBackoff := None, CONNECT_RETRY_MIN;
    }

    method NeedsPush(now: int) returns (push: bool)
      ensures push == WantsPush(View(), now)
    {
      if track.None? {
        return false;
      }
      if sent.None? {
        return true;
      }
      if sent.value.videoId != track.value.videoId || sent.value.name != name {
        return true;
      }
      if Abs(duration - sent.value.duration) > 1_000 {
        return true;
      }
      var p := GetEstimate(now);
      push := Abs(p - (now - sent.value.startMs)) > SEEK_DRIFT;
    }

    /** Decide without changing anything; the checks come in the thread's own order. */
    method Decide(now: int) returns (act: Act)
      ensures act == Plan(View(), now)
    {
      if !enabled {
        return Idle;
      }
      var wantCard := playing && track.Some?;
      if wantCard {
        var push := NeedsPush(now);
        if !push {
          return Idle;
        }
        if duration <= 0 && (sent.None? || sent.value.videoId != track.value.videoId) {
          var rem := Remaining(DURATION_GRACE, Some(trackAt), now);
          if rem.Some? {
            return Wait(Max(rem.value, MIN_WAIT));
          }
        }
      } else if sent.None? {
        return Idle;
      }
      var rem := Remaining(SEND_FLOOR, lastSend, now);
      if rem.Some? {
        return Wait(Max(rem.value, MIN_WAIT));
      }
      act := if wantCard then Push else TakeDown;
    }

    method Reconcile(a: Answers) returns (wait: int)
      modifies this
      ensures View() == Sync(old(View()), a) && wait == SyncWait(old(View()), a)
    {
      if !enabled {
        return IDLE_TICK;
      }
      var up := TryConnect(a.connectAt, a.connectOk);
      var act := Decide(a.planAt);
      wait := IDLE_TICK;
      match act {
        case Idle =>
        case Wait(ms) => wait := ms;
        case Push =>
          up := TryConnect(a.retryAt, a.retryOk);
          if up {
            SendCard(a.cardAt, a.sendAt, a.frameOk);
          }
        case TakeDown => ClearCard(Clear(a.sendAt), a.sendAt, a.frameOk);
      }
      var rem := Remaining(connectBackoff, lastConnectTry, a.endAt);
      if rem.Some? && !connected {
        wait := Min(wait, Max(rem.value, MIN_WAIT));
      }
    }

    /** The owner loop over any timely history of messages and wake-ups. */
    method Drive(ghost t0: int, h: seq<Event>)
      requires Timely(t0, h)
      requires exists on, n :: View() == New(on, n, t0)
      modifies this
      ensures View() == Run(old(View()), h)
      ensures Spaced(wire) && (sent.Some? ==> connected)
    {
      ghost var start := View();
      var i := 0;
      while i < |h|
        invariant 0 <= i <= |h|
        invariant View() == Run(start, h[..i])
      {
        assert h[..i + 1][..i] == h[..i];
        match h[i] {
          case Recv(_, now, msg) => Apply(msg, now);
          case Wake(answers) => var _ := Reconcile(answers);
        }
        i := i + 1;
      }
      assert h[..|h|] == h;
      ghost var on, n :| start == New(on, n, t0);
      RunsAreRateLimited(on, n, t0, h);
    }
  }
}
