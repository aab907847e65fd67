/**
 What each message and each answer means to the presence card: which messages leave a frame due, what
 a card shows, when the first card goes out, and how reconnecting backs off.
 */
module PresenceLaws {
  import opened Common
  import opened Discord

  // ---- every message is noticed ----------------------------------------------------------------

  /** Whether a message leaves the card that is up as it should be. */
  predicate Agrees(s: State, msg: Msg, now: int)
    requires s.sent.Some?
  {
    var card := s.sent.value;
    match msg
    case Duration(ms) => -1_000 <= ms - card.duration <= 1_000
    case Name(name) => name == card.name
    case Position(pos, at) => -2_000 <= pos - (at - card.startMs) <= 2_000
    case NewTrack(t) =>
      t.videoId == card.videoId && -1_000 <= card.duration <= 1_000 && -2_000 <= now - card.startMs <= 2_000
    case Playing(on) => on
    case Enabled(_) => true
  }

  /**
   With a card up and nothing to add to it, a message leaves a frame due exactly when the card no longer
   agrees with it, at once and for all later time. (Turning presence off takes the card down itself.)
   */
  lemma MessageIsNoticed(s: State, t0: int, msg: Msg, now: int, t: int)
    requires Steady(s, t0) && t0 <= now <= t && (msg.Position? ==> msg.at <= now)
    ensures Plan(ApplyMsg(s, msg, now), t).Idle? <==> Agrees(s, msg, now)
  {
  }

  /** Turning presence off says goodbye if a card is up, and closes the socket; nothing is due after it. */
  lemma DisablingSaysGoodbye(s: State, now: int, t: int)
    requires s.enabled && (s.sent.Some? ==> s.connected)
    ensures var s' := ApplyMsg(s, Enabled(false), now);
            && !s'.enabled && !s'.connected && s'.sent.None? && Plan(s', t).Idle?
            && s'.wire == s.wire + (if s.sent.Some? then [Goodbye(now)] else [])
            && s'.lastSend == (if s.sent.Some? then Some(now) else s.lastSend)
            && s'.lastTry.None? && s'.backoff == 1_000
  {
  }

  /** Clearing forgets the card in any case, and sends a frame exactly when there is a socket to send it on. */
  lemma ClearingForgets(s: State, frame: Frame, ok: bool)
    requires s.sent.Some?
    ensures var s' := ClearShown(s, frame, ok);
            && s'.sent.None? && s'.connected == (s.connected && ok)
            && s'.wire == s.wire + (if s.connected then [frame] else [])
            && s'.lastSend == (if s.connected then Some(frame.at) else s.lastSend)
  {
  }

  /** Pausing takes the card down as soon as the floor allows, and a paused thread never shows one. */
  lemma PausingTakesDown(s: State, t0: int, now: int, t: int)
    requires Steady(s, t0) && t0 <= now <= t
    ensures var s' := ApplyMsg(s, Playing(false), now);
            Plan(s', t).TakeDown? <==> Cleared(s, t)
  {
  }

  // ---- what a card shows -----------------------------------------------------------------------

  /** A card names the current track, and its bar stands where playback does and ends where the track does. */
  lemma CardShowsPosition(s: State, cardAt: int, sendAt: int, t: int)
    requires s.track.Some? && s.playing && s.posAt <= cardAt <= t && Estimate(s, cardAt) >= 0
    ensures var card := CardOf(s, cardAt, sendAt);
            && card.at == sendAt && card.track == s.track.value && card.name == s.name
            && t - card.startMs == Estimate(s, t)
            && (card.endMs.Some? <==> s.duration > 0)
            && (card.endMs.Some? ==> card.endMs.value - t == s.duration - Estimate(s, t))
  {
  }

  /** What is remembered of a card is what was sent. */
  lemma SentIsCard(s: State, cardAt: int, sendAt: int)
    requires s.track.Some? && s.connected
    ensures var s', card := PushCard(s, cardAt, sendAt, true), CardOf(s, cardAt, sendAt);
            && s'.wire == s.wire + [card] && s'.lastSend == Some(card.at) && s'.connected
            && s'.sent.Some? && s'.sent.value.videoId == card.track.videoId && s'.sent.value.name == card.name
            && s'.sent.value.startMs == card.startMs
            && s'.sent.value.duration == (if card.endMs.Some? then card.endMs.value - card.startMs else s.duration)
  {
  }

  // ---- when a frame goes out -------------------------------------------------------------------

  /** The floor is over: strictly more than 1500 ms since the last frame. */
  predicate Cleared(s: State, now: int) {
    s.lastSend.Some? ==> now - s.lastSend.value > 1_500
  }

  /** A card of the track is up, its length is known, or 800 ms have gone by since the track came. */
  predicate Settled(s: State, now: int) {
    s.duration > 0 || now - s.trackAt > 800
    || (s.sent.Some? && s.track.Some? && s.sent.value.videoId == s.track.value.videoId)
  }

  /**
   A card goes out exactly when one is wanted and differs from what is up, the grace for its length is
   over and so is the floor; a card is taken down exactly when none is wanted and the floor is over.
   */
  lemma FramesAreDue(s: State, now: int)
    requires s.trackAt <= now && (s.lastSend.Some? ==> s.lastSend.value <= now)
    ensures Plan(s, now) == Push
            <==> s.enabled && s.playing && s.track.Some? && WantsPush(s, now) && Settled(s, now) && Cleared(s, now)
    ensures Plan(s, now) == TakeDown
            <==> s.enabled && !(s.playing && s.track.Some?) && s.sent.Some? && Cleared(s, now)
  {
  }

  /** A wait ends when its reason does, give or take the minimum wait. */
  lemma WaitsEndInTime(s: State, now: int)
    requires s.trackAt <= now && (s.lastSend.Some? ==> s.lastSend.value <= now) && Plan(s, now).Wait?
    ensures var end := now + Plan(s, now).ms;
            if WantsCard(s) && !Settled(s, now)
            then end == s.trackAt + 800 || (end == now + 10 && s.trackAt + 800 < end)
            else end == s.lastSend.value + 1_500 || (end == now + 10 && s.lastSend.value + 1_500 < end)
  {
  }

  /** With nothing to do the thread sleeps five minutes, and a message or a retry wakes it before. */
  lemma IdleSleepsLong(s: State, a: Answers)
    ensures !s.enabled ==> SyncWait(s, a) == 5 * 60_000 && Sync(s, a) == s
    ensures s.enabled && s.connected && Plan(s, a.planAt).Idle? ==> SyncWait(s, a) == 5 * 60_000 && Sync(s, a) == s
  {
  }

  /** Without a socket the thread wakes for the next attempt: no later than the backoff has left. */
  lemma RetryWakes(s: State, a: Answers)
    requires s.enabled && !Sync(s, a).connected && Sync(s, a).lastTry.Some?
    requires var s' := Sync(s, a); 0 <= a.endAt - s'.lastTry.value <= s'.backoff
    ensures var s' := Sync(s, a);
            SyncWait(s, a) <= Max(s'.backoff - (a.endAt - s'.lastTry.value), 10)
  {
    hide Sync, Plan, EnsureConnected;
  }

  // ---- reconnecting ----------------------------------------------------------------------------

  /** Failed attempts one after another, each at a moment the backoff allows. */
  function Failing(s: State, tries: seq<int>): State {
    if tries == [] then s else EnsureConnected(Failing(s, tries[..|tries| - 1]), tries[|tries| - 1], false)
  }

  function Doubled(n: nat): int {
    if n == 0 then 1_000 else 2 * Doubled(n - 1)
  }

  ghost predicate Allowed(s: State, tries: seq<int>) {
    tries != [] ==>
      var front := tries[..|tries| - 1];
      Allowed(s, front) && Remaining(Failing(s, front).backoff, Failing(s, front).lastTry, tries[|tries| - 1]).None?
  }

  /** The backoff starts at a second, doubles with every failure, and stops at two minutes. */
  lemma {:induction false} BackoffDoubles(s: State, tries: seq<int>)
    requires !s.connected && s.backoff == CONNECT_RETRY_MIN && Allowed(s, tries)
    ensures var s' := Failing(s, tries);
            && !s'.connected && s'.backoff == Min(Doubled(|tries|), 120_000)
            && (tries != [] ==> s'.lastTry == Some(tries[|tries| - 1]))
  {
    if tries != [] {
      BackoffDoubles(s, tries[..|tries| - 1]);
    }
  }

  /** An attempt is made only after the backoff is over, and a success starts afresh with nothing shown. */
  lemma AttemptsWait(s: State, now: int, ok: bool)
    requires !s.connected && (s.lastTry.Some? ==> s.lastTry.value <= now)
    ensures var s' := EnsureConnected(s, now, ok);
            && (s' == s || s'.lastTry == Some(now))
            && (s' != s && s.lastTry.Some? ==> now - s.lastTry.value > s.backoff)
            && (s'.connected <==> ok && (s.lastTry.Some? ==> now - s.lastTry.value > s.backoff))
            && (s'.connected ==> s'.sent.None? && s'.backoff == 1_000)
  {
  }

  /** Starting playback or turning presence on lets the next wake-up try at once, whatever the backoff was. */
  lemma ActionsReconnect(s: State, now: int, t: int)
    requires !s.connected
    ensures s.enabled && !s.playing ==> EnsureConnected(ApplyMsg(s, Playing(true), now), t, true).connected
    ensures !s.enabled ==> EnsureConnected(ApplyMsg(s, Enabled(true), now), t, true).connected
    ensures s.enabled && !s.playing ==> ApplyMsg(s, Playing(true), now).backoff == 1_000
  {
  }

  /** No other message touches the socket, the floor or what was sent. */
  lemma MessagesKeepSocket(s: State, msg: Msg, now: int)
    requires msg != Enabled(false)
    ensures var s' := ApplyMsg(s, msg, now);
            s'.connected == s.connected && s'.sent == s.sent && s'.lastSend == s.lastSend && s'.wire == s.wire
  {
  }

  /** Which message sets what; the rest of the wanted state stays. */
  lemma MessagesSetWhatTheySay(s: State, msg: Msg, now: int)
    ensures var s' := ApplyMsg(s, msg, now);
            && s'.track == (if msg.NewTrack? then Some(msg.track) else s.track)
            && s'.trackAt == (if msg.NewTrack? then now else s.trackAt)
            && s'.duration == (if msg.NewTrack? then 0 else if msg.Duration? then msg.ms else s.duration)
            && s'.name == (if msg.Name? then msg.name else s.name)
            && s'.enabled == (if msg.Enabled? then msg.on else s.enabled)
            && s'.playing == (if msg.Playing? then msg.on else s.playing)
  {
  }
}
