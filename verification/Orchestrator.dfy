/**
 Stream selection (crates/core/src/orchestrator.rs): the fallback loop of `resolve` against a
 declarative choice over whatever the clients would have answered, the HIGH two-pass, the per-video
 failure memory and the self-heal window.

 Player calls, URL deciphering, HEAD probes and the rustypipe fallback are inputs (`Request`).
 */
module Orchestrator {
  import opened Common

  const MAIN_CLIENT := "WEB_REMIX"
  const CREATOR_CLIENT := "WEB_CREATOR"
  const NEEDS_N_TRANSFORM := ["WEB", "WEB_REMIX", "WEB_CREATOR", "TVHTML5"]
  const HEAL_WINDOW := 600_000

  datatype Format = Format(
    quality: Option<string>, channels: Option<int>, mime: string, bitrate: int, loudness: Option<real>)

  datatype Ping = Ping(url: string, client: string)

  /** `choice` is what format picking answers for the wanted quality. */
  datatype Streaming = Streaming(expires: Option<int>, formats: seq<Format>, choice: Option<Format>)

  datatype Reply = Reply(
    ok: bool, botGate: bool, ageGated: bool, streaming: Option<Streaming>, loudness: Option<real>,
    pingUrl: Option<string>)

  datatype Client = Client(loginRequired: bool, usesPoTokens: bool)

  /** What one place in the chain would answer: its reply, its playable URL, its HEAD probe, when. */
  datatype Attempt = Attempt(reply: Option<Reply>, url: Option<string>, headOk: bool, at: int)

  datatype Request = Request(
    videoId: string, isUpload: bool, preferHigh: bool, loggedIn: bool, disabled: set<string>,
    clients: map<string, Client>, order: seq<string>,
    mainReply: Option<Reply>, creatorReply: Option<Reply>,
    attempts: seq<Attempt>, rustypipe: Option<string>)
  {
    /** One attempt for the main client and one for each fallback. */
    ghost predicate Valid() {
      |attempts| == |order| + 1 &&
      forall i, j :: 0 <= i <= j < |attempts| ==> attempts[i].at <= attempts[j].at
    }
  }

  datatype Outcome =
    | Stream(place: nat, url: string, loudness: Option<real>, ping: Option<Ping>)
    | UploadUnavailable
    | Rustypipe(url: string)
    | BotGated
    | AllClientsFailed

  // ---- comparing formats -----------------------------------------------------------------------

  predicate OccursAt(s: string, sub: string, i: nat) {
    i + |sub| <= |s| && s[i..i + |sub|] == sub
  }

  predicate Contains(s: string, sub: string) {
    exists i: nat :: i <= |s| && OccursAt(s, sub, i)
  }

  function Rank(f: Format): int {
    match f.quality
    case Some("AUDIO_QUALITY_HIGH") => 3
    case Some("AUDIO_QUALITY_MEDIUM") => 2
    case Some("AUDIO_QUALITY_LOW") => 1
    case _ => 0
  }

  function Channels(f: Format): int {
    if f.channels.Some? then f.channels.value else 2
  }

  function Codec(f: Format): int {
    if Contains(f.mime, "opus") then 2 else if Contains(f.mime, "mp4a") then 1 else 0
  }

  predicate IsHigh(f: Format) {
    f.quality == Some("AUDIO_QUALITY_HIGH")
  }

  predicate Better(a: Format, b: Format) {
    Rank(a) > Rank(b) || (Rank(a) == Rank(b) &&
    (Channels(a) > Channels(b) || (Channels(a) == Channels(b) &&
    (Codec(a) > Codec(b) || (Codec(a) == Codec(b) && a.bitrate > b.bitrate)))))
  }

  /** `Better` is a strict weak order: not being better is transitive, so "maximal" is well defined. */
  lemma BetterIsStrictWeak(a: Format, b: Format, c: Format)
    ensures !Better(a, a)
    ensures Better(a, b) ==> !Better(b, a)
    ensures Better(a, b) && Better(b, c) ==> Better(a, c)
    ensures !Better(a, b) && !Better(b, c) ==> !Better(a, c)
    ensures Better(a, b) && !Better(c, b) ==> Better(a, c)
  {
  }

  // ---- the main request ------------------------------------------------------------------------

  function FirstMain(q: Request): Option<Reply> {
    if MAIN_CLIENT in q.clients && MAIN_CLIENT !in q.disabled then q.mainReply else None
  }

  /** An age or login gate is retried once through the authenticated client. */
  predicate CreatorTookOver(q: Request) {
    q.loggedIn && FirstMain(q).Some? && FirstMain(q).value.ageGated
    && CREATOR_CLIENT in q.clients && q.creatorReply.Some?
  }

  function Main(q: Request): Option<Reply> {
    if CreatorTookOver(q) then q.creatorReply else FirstMain(q)
  }

  function PingOf(r: Reply, key: string): Option<Ping> {
    if r.pingUrl.Some? then Some(Ping(r.pingUrl.value, key)) else None
  }

  function MainPing(q: Request): Option<Ping> {
    if Main(q).None? then None
    else PingOf(Main(q).value, if CreatorTookOver(q) then CREATOR_CLIENT else MAIN_CLIENT)
  }

  predicate HighAdvertised(q: Request) {
    Main(q).Some? && Main(q).value.streaming.Some? &&
    exists f :: f in Main(q).value.streaming.value.formats && IsHigh(f)
  }

  // ---- what each place in the chain offers -----------------------------------------------------

  function Key(q: Request, i: nat): string
    requires i <= |q.order|
  {
    if i == 0 then MAIN_CLIENT else q.order[i - 1]
  }

  predicate Asked(q: Request, failed: set<string>, i: nat)
    requires i <= |q.order|
  {
    var key := Key(q, i);
    if i == 0 then
      Main(q).Some? && Main(q).value.ok && key !in q.disabled && (q.isUpload || q.videoId !in failed)
    else
      key !in q.disabled && key in q.clients && (q.clients[key].loginRequired ==> q.loggedIn)
  }

  function ReplyAt(q: Request, failed: set<string>, i: nat): Option<Reply>
    requires q.Valid() && i < |q.attempts|
  {
    var r := if i == 0 then Main(q) else q.attempts[i].reply;
    if Asked(q, failed, i) && r.Some? && r.value.ok then r else None
  }

  /** The reply carries a stream in the wanted quality. */
  predicate Heard(q: Request, failed: set<string>, i: nat)
    requires q.Valid() && i < |q.attempts|
  {
    var r := ReplyAt(q, failed, i);
    r.Some? && r.value.streaming.Some? && r.value.streaming.value.expires.Some?
    && r.value.streaming.value.choice.Some?
  }

  predicate Usable(q: Request, failed: set<string>, i: nat)
    requires q.Valid() && i < |q.attempts|
  {
    Heard(q, failed, i) && q.attempts[i].url.Some?
  }

  function FormatAt(q: Request, failed: set<string>, i: nat): Format
    requires q.Valid() && i < |q.attempts| && Heard(q, failed, i)
  {
    ReplyAt(q, failed, i).value.streaming.value.choice.value
  }

  predicate Skipped(q: Request, failed: set<string>, i: nat)
    requires q.Valid() && i < |q.attempts|
  {
    Usable(q, failed, i) && q.preferHigh && !IsHigh(FormatAt(q, failed, i)) && HighAdvertised(q)
  }

  predicate Accepted(q: Request, failed: set<string>, i: nat)
    requires q.Valid() && i < |q.attempts|
  {
    Usable(q, failed, i) && !Skipped(q, failed, i) && (q.isUpload || q.attempts[i].headOk)
  }

  /** The main loudness if there is one, else the first one heard before place `n`. */
  function Loudness(q: Request, failed: set<string>, n: nat): Option<real>
    requires q.Valid() && n <= |q.attempts|
  {
    if n == 0 then if Main(q).Some? then Main(q).value.loudness else None
    else
      var earlier := Loudness(q, failed, n - 1);
      if earlier.Some? || !Heard(q, failed, n - 1) then earlier
      else ReplyAt(q, failed, n - 1).value.loudness
  }

  /** Some reply before place `n` was the anti-bot gate, the main reply included. */
  ghost predicate BotGateSeen(q: Request, failed: set<string>, n: nat)
    requires q.Valid() && n <= |q.attempts|
  {
    (Main(q).Some? && !Main(q).value.ok && Main(q).value.botGate) ||
    exists i :: 0 < i < n && Asked(q, failed, i) && q.attempts[i].reply.Some?
                && !q.attempts[i].reply.value.ok && q.attempts[i].reply.value.botGate
  }

  // ---- the choice ------------------------------------------------------------------------------

  ghost predicate FirstAccepted(q: Request, failed: set<string>, i: nat)
    requires q.Valid() && i < |q.attempts|
  {
    Accepted(q, failed, i) && forall j :: 0 <= j < i ==> !Accepted(q, failed, j)
  }

  /** Among the skipped before `n`: nothing is better, and everything earlier is worse. */
  ghost predicate BestSkipped(q: Request, failed: set<string>, n: nat, i: nat)
    requires q.Valid() && n <= |q.attempts|
  {
    && i < n && Skipped(q, failed, i)
    && forall j :: 0 <= j < n && Skipped(q, failed, j) ==>
         && !Better(FormatAt(q, failed, j), FormatAt(q, failed, i))
         && (j < i ==> Better(FormatAt(q, failed, i), FormatAt(q, failed, j)))
  }

  function Playing(q: Request, failed: set<string>, i: nat, heard: nat): Outcome
    requires q.Valid() && i < |q.attempts| && heard <= |q.attempts| && Usable(q, failed, i)
  {
    var f, own := FormatAt(q, failed, i), PingOf(ReplyAt(q, failed, i).value, Key(q, i));
    Stream(i, q.attempts[i].url.value,
           if f.loudness.Some? then f.loudness else Loudness(q, failed, heard),
           if MainPing(q).Some? then MainPing(q) else own)
  }

  ghost predicate AnyAccepted(q: Request, failed: set<string>)
    requires q.Valid()
  {
    exists i :: 0 <= i < |q.attempts| && Accepted(q, failed, i)
  }

  ghost predicate AnySkipped(q: Request, failed: set<string>)
    requires q.Valid()
  {
    exists i :: 0 <= i < |q.attempts| && Skipped(q, failed, i)
  }

  ghost predicate PlaysFirst(q: Request, failed: set<string>, o: Outcome)
    requires q.Valid()
  {
    o.Stream? && o.place < |q.attempts| && FirstAccepted(q, failed, o.place)
    && o == Playing(q, failed, o.place, o.place + 1)
  }

  ghost predicate PlaysBest(q: Request, failed: set<string>, o: Outcome)
    requires q.Valid()
  {
    o.Stream? && o.place < |q.attempts| && BestSkipped(q, failed, |q.attempts|, o.place)
    && o == Playing(q, failed, o.place, |q.attempts|)
  }

  /** The outcome the chain promises, with no mention of how it is searched for. */
  ghost predicate Chosen(q: Request, failed: set<string>, o: Outcome)
    requires q.Valid()
  {
    if AnyAccepted(q, failed) then PlaysFirst(q, failed, o)
    else if AnySkipped(q, failed) then PlaysBest(q, failed, o)
    else if q.isUpload then o == UploadUnavailable
    else if q.rustypipe.Some? then o == Rustypipe(q.rustypipe.value)
    else if BotGateSeen(q, failed, |q.attempts|) then o == BotGated
    else o == AllClientsFailed
  }

  lemma ChoiceIsUnique(q: Request, failed: set<string>, o: Outcome, o': Outcome)
    requires q.Valid() && Chosen(q, failed, o) && Chosen(q, failed, o')
    ensures o == o'
  {
    if !AnyAccepted(q, failed) && AnySkipped(q, failed) {
      var n := |q.attempts|;
      assert BestSkipped(q, failed, n, o.place) && BestSkipped(q, failed, n, o'.place);
      assert Skipped(q, failed, o.place) && Skipped(q, failed, o'.place);
      assert o.place == o'.place;
    } else if AnyAccepted(q, failed) {
      assert Accepted(q, failed, o.place) && Accepted(q, failed, o'.place);
      assert o.place == o'.place;
    }
  }

  /** A remembered web failure steers every later non-upload choice away from the main client. */
  lemma FailureMemorySteers(q: Request, failed: set<string>, o: Outcome)
    requires q.Valid() && Chosen(q, failed, o) && !q.isUpload && q.videoId in failed
    ensures o.Stream? ==> o.place != 0
  {
    assert !Asked(q, failed, 0);
  }

  /** A chosen stream is usable, and a non-HIGH one wins only if no place at all is accepted. */
  lemma ChoiceRespectsRequest(q: Request, failed: set<string>, o: Outcome)
    requires q.Valid() && Chosen(q, failed, o) && o.Stream?
    ensures o.place < |q.attempts| && Usable(q, failed, o.place) && Key(q, o.place) !in q.disabled
    ensures q.preferHigh && HighAdvertised(q) && !IsHigh(FormatAt(q, failed, o.place)) ==>
              forall i :: 0 <= i < |q.attempts| ==> !Accepted(q, failed, i)
  {
  }

  /** The client that answered at a place: the retry answers under the main client's name. */
  function Answerer(q: Request, i: nat): string
    requires i <= |q.order|
  {
    if i == 0 && CreatorTookOver(q) then CREATOR_CLIENT else Key(q, i)
  }

  /** The source of a chosen stream is an enabled client, exactly unless a disabled one answered the retry. */
  lemma SourceIsEnabled(q: Request, failed: set<string>, o: Outcome)
    requires q.Valid() && Chosen(q, failed, o) && o.Stream?
    ensures o.place <= |q.order|
    ensures Answerer(q, o.place) !in q.disabled
            <==> !(o.place == 0 && CreatorTookOver(q) && CREATOR_CLIENT in q.disabled)
  {
    ChoiceRespectsRequest(q, failed, o);
  }

  /** The retry does not look at the disabled clients: with the creator client disabled, it still plays. */
  lemma DisabledCreatorCanPlay() returns (q: Request, o: Outcome)
    ensures q.Valid() && Chosen(q, {}, o) && o.Stream? && o.place == 0
    ensures Answerer(q, o.place) in q.disabled && ReplyAt(q, {}, 0) == q.creatorReply
  {
    var format := Format(None, None, "", 0, None);
    var gated := Reply(false, false, true, None, None, None);
    var answer := Reply(true, false, false, Some(Streaming(Some(1), [format], Some(format))), None, None);
    var client := Client(false, false);
    q := Request("v", false, false, true, {CREATOR_CLIENT}, map[MAIN_CLIENT := client, CREATOR_CLIENT := client], [],
      Some(gated), Some(answer), [Attempt(None, Some("u"), true, 0)], None);
    assert CREATOR_CLIENT[4] != MAIN_CLIENT[4];
    assert CreatorTookOver(q) && Heard(q, {}, 0);
    assert Accepted(q, {}, 0);
    o := Playing(q, {}, 0, 1);
  }

  /** The loop sends a probe for the place if it gets there. */
  predicate WantsProbe(q: Request, failed: set<string>, i: nat)
    requires q.Valid() && i < |q.attempts|
  {
    !q.isUpload && Usable(q, failed, i) && !Skipped(q, failed, i)
  }

  /** The loop gets to the place and sends a probe for it. */
  ghost predicate Probed(q: Request, failed: set<string>, i: nat)
    requires q.Valid() && i < |q.attempts|
  {
    WantsProbe(q, failed, i) && forall j :: 0 <= j < i ==> !Accepted(q, failed, j)
  }

  /**
   Uploads apart, a chosen stream was probed exactly when some place was accepted, and then it answered;
   else it is the remembered lesser one, which was not probed.
   */
  lemma ProbedIffAccepted(q: Request, failed: set<string>, o: Outcome)
    requires q.Valid() && Chosen(q, failed, o) && o.Stream? && !q.isUpload
    ensures o.place < |q.attempts|
    ensures Probed(q, failed, o.place) <==> AnyAccepted(q, failed)
    ensures Skipped(q, failed, o.place) <==> !AnyAccepted(q, failed)
    ensures Probed(q, failed, o.place) ==> q.attempts[o.place].headOk
  {
  }

  /**
   The remembered lesser stream is played without a probe: here the main client's HIGH stream fails its
   probe, and the fallback's stream is played, which no probe was sent for and none would have passed.
   */
  lemma UnprobedStreamCanPlay() returns (q: Request, o: Outcome)
    ensures q.Valid() && !q.isUpload && Chosen(q, {}, o) && o.Stream?
    ensures o.place == |q.order| && !Probed(q, {}, o.place) && !q.attempts[o.place].headOk
  {
    var high, low := Format(Some("AUDIO_QUALITY_HIGH"), None, "", 0, None), Format(None, None, "", 0, None);
    var main := Reply(true, false, false, Some(Streaming(Some(1), [high], Some(high))), None, None);
    var other := Reply(true, false, false, Some(Streaming(Some(1), [low], Some(low))), None, None);
    var client, dead := Client(false, false), Attempt(Some(other), Some("u"), false, 0);
    q := Request("v", false, true, false, {}, map[MAIN_CLIENT := client, "VISIONOS" := client], ["VISIONOS"],
      Some(main), None, [dead, dead], None);
    assert high in Main(q).value.streaming.value.formats;
    assert Heard(q, {}, 0) && FormatAt(q, {}, 0) == high;
    assert Heard(q, {}, 1) && FormatAt(q, {}, 1) == low;
    assert Skipped(q, {}, 1) && !AnyAccepted(q, {});
    assert BestSkipped(q, {}, 2, 1);
    o := Playing(q, {}, 1, 2);
  }

  /** A remembered best-but-not-ideal stream. */
  datatype Candidate = Candidate(place: nat, format: Format, url: string, ping: Option<Ping>)

  /** What the loop remembers of a skipped place. */
  ghost function CandidateAt(q: Request, failed: set<string>, i: nat): Candidate
    requires q.Valid() && i < |q.attempts| && Usable(q, failed, i)
  {
    Candidate(i, FormatAt(q, failed, i), q.attempts[i].url.value,
      if MainPing(q).Some? then MainPing(q) else PingOf(ReplyAt(q, failed, i).value, Key(q, i)))
  }

  function BuildStream(c: Candidate, loudness: Option<real>): Outcome {
    Stream(c.place, c.url, if c.format.loudness.Some? then c.format.loudness else loudness, c.ping)
  }

  // ---- the loop as it runs ---------------------------------------------------------------------

  ghost predicate HealsSpaced(heals: seq<int>) {
    forall i :: 0 < i < |heals| ==> heals[i] >= heals[i - 1] + HEAL_WINDOW
  }

  /** A failed probe of a client whose stream went through the cipher asks for a self-heal. */
  predicate WantsHeal(q: Request, failed: set<string>, i: nat)
    requires q.Valid() && i < |q.attempts|
  {
    var key := Key(q, i);
    WantsProbe(q, failed, i) && !q.attempts[i].headOk &&
    (key in NEEDS_N_TRANSFORM || (key in q.clients && q.clients[key].usesPoTokens))
  }

  /** One more moment in the list of heals, if the window since the last one is over. */
  function Healed(heals: seq<int>, now: int): seq<int> {
    if heals == [] || now - heals[|heals| - 1] >= HEAL_WINDOW then heals + [now] else heals
  }

  /** The heals after the turns before place `n`. */
  function HealsAfter(q: Request, failed: set<string>, heals: seq<int>, n: nat): seq<int>
    requires q.Valid() && n <= |q.attempts|
  {
    if n == 0 then heals
    else
      var earlier := HealsAfter(q, failed, heals, n - 1);
      if WantsHeal(q, failed, n - 1) then Healed(earlier, q.attempts[n - 1].at) else earlier
  }

  lemma AcceptedIsChosen(q: Request, failed: set<string>, i: nat)
    requires q.Valid() && i < |q.attempts| && FirstAccepted(q, failed, i)
    ensures Chosen(q, failed, Playing(q, failed, i, i + 1))
  {
    hide Accepted, Skipped;
  }

  /** What the loop comes back with when nothing was accepted. */
  function Fallen(q: Request, best: Option<Candidate>, loudness: Option<real>, botGated: bool): Outcome {
    if best.Some? then BuildStream(best.value, loudness)
    else if q.isUpload then UploadUnavailable
    else if q.rustypipe.Some? then Rustypipe(q.rustypipe.value)
    else if botGated then BotGated
    else AllClientsFailed
  }

  lemma FallenIsChosen(q: Request, failed: set<string>, best: Option<Candidate>)
    requires q.Valid() && BestSoFar(q, failed, |q.attempts|, best)
    requires forall j :: 0 <= j < |q.attempts| ==> !Accepted(q, failed, j)
    ensures Chosen(q, failed, Fallen(q, best, Loudness(q, failed, |q.attempts|), BotGateSeen(q, failed, |q.attempts|)))
  {
    hide Accepted, Skipped, ReplyAt, Better, Heard;
  }

  lemma GateStep(q: Request, failed: set<string>, n: nat)
    requires q.Valid() && n < |q.attempts|
    ensures BotGateSeen(q, failed, n + 1)
            <==> BotGateSeen(q, failed, n) ||
                 (n > 0 && Asked(q, failed, n) && q.attempts[n].reply.Some?
                  && !q.attempts[n].reply.value.ok && q.attempts[n].reply.value.botGate)
    ensures BotGateSeen(q, failed, 0) <==> Main(q).Some? && !Main(q).value.ok && Main(q).value.botGate
  {
    hide Main, Asked;
  }

  /** The loop takes `n` turns: up to and with the first accepted place, or all. */
  ghost predicate EndsAt(q: Request, failed: set<string>, n: nat)
    requires q.Valid()
  {
    && n <= |q.attempts| && (n == |q.attempts| || (n > 0 && Accepted(q, failed, n - 1)))
    && forall j :: 0 <= j < n - 1 ==> !Accepted(q, failed, j)
  }

  lemma HealsStep(q: Request, failed: set<string>, heals: seq<int>, n: nat)
    requires q.Valid() && n < |q.attempts|
    ensures var earlier := HealsAfter(q, failed, heals, n);
            HealsAfter(q, failed, heals, n + 1)
            == if WantsHeal(q, failed, n) then Healed(earlier, q.attempts[n].at) else earlier
    ensures HealsAfter(q, failed, heals, 0) == heals
  {
  }

  /**
   What a whole resolve promises: the declared choice, exactly the specified probes, and the heals of
   the turns it took, no more.
   */
  ghost predicate Resolved(q: Request, failed: set<string>, o: Outcome, probes: set<nat>,
                           heals0: seq<int>, heals: seq<int>)
    requires q.Valid()
  {
    && Chosen(q, failed, o)
    && (forall i: nat :: i in probes <==> i < |q.attempts| && Probed(q, failed, i))
    && exists n :: EndsAt(q, failed, n) && heals == HealsAfter(q, failed, heals0, n)
  }

  /** Where the loop stands before turn `n`, nothing accepted so far. */
  ghost predicate Walking(q: Request, failed: set<string>, n: nat, best: Option<Candidate>, loudness: Option<real>,
                          botGated: bool, probes: set<nat>, heals0: seq<int>, heals: seq<int>)
    requires q.Valid() && n <= |q.attempts|
  {
    && BestSoFar(q, failed, n, best) && loudness == Loudness(q, failed, n)
    && (botGated <==> BotGateSeen(q, failed, n)) && ProbedBefore(q, failed, n, probes)
    && heals == HealsAfter(q, failed, heals0, n) && forall j :: 0 <= j < n ==> !Accepted(q, failed, j)
  }

  lemma WalkStarts(q: Request, failed: set<string>, heals: seq<int>)
    requires q.Valid()
    ensures Walking(q, failed, 0, None, if Main(q).Some? then Main(q).value.loudness else None,
              Main(q).Some? && !Main(q).value.ok && Main(q).value.botGate, {}, heals, heals)
  {
    GateStep(q, failed, 0);
    hide Main, Accepted, Skipped, WantsProbe, WantsHeal;
  }

  lemma WalkingParts(q: Request, failed: set<string>, n: nat, best: Option<Candidate>, loudness: Option<real>,
                     botGated: bool, probes: set<nat>, heals0: seq<int>, heals: seq<int>)
    requires q.Valid() && n <= |q.attempts| && Walking(q, failed, n, best, loudness, botGated, probes, heals0, heals)
    ensures BestSoFar(q, failed, n, best) && loudness == Loudness(q, failed, n)
  {
  }

  /** Whether the reply of a place is the anti-bot gate. */
  predicate Gates(q: Request, failed: set<string>, i: nat)
    requires q.Valid() && i < |q.attempts|
  {
    i > 0 && Asked(q, failed, i) && q.attempts[i].reply.Some?
    && !q.attempts[i].reply.value.ok && q.attempts[i].reply.value.botGate
  }

  lemma WalkStep(q: Request, failed: set<string>, n: nat, before: Option<Candidate>, best: Option<Candidate>,
                 botGated: bool, probes: set<nat>, heals0: seq<int>, heals: seq<int>)
    requires q.Valid() && n < |q.attempts| && !Accepted(q, failed, n) && BestSoFar(q, failed, n + 1, best)
    requires Walking(q, failed, n, before, Loudness(q, failed, n), botGated, probes, heals0, heals)
    ensures Walking(q, failed, n + 1, best, Loudness(q, failed, n + 1), botGated || Gates(q, failed, n),
              probes + (if WantsProbe(q, failed, n) then {n} else {}), heals0,
              if WantsHeal(q, failed, n) then Healed(heals, q.attempts[n].at) else heals)
  {
    GateStep(q, failed, n);
    ProbedStep(q, failed, n, probes);
    HealsStep(q, failed, heals0, n);
    hide BestSoFar, Loudness, BotGateSeen, ProbedBefore, HealsAfter, Accepted, WantsProbe, WantsHeal, Healed, Asked;
  }

  /** The turn that accepts ends the walk. */
  lemma WalkEnds(q: Request, failed: set<string>, n: nat, best: Option<Candidate>,
                 botGated: bool, probes: set<nat>, heals0: seq<int>, heals: seq<int>)
    requires q.Valid() && n < |q.attempts| && Accepted(q, failed, n)
    requires Walking(q, failed, n, best, Loudness(q, failed, n), botGated, probes, heals0, heals)
    ensures Resolved(q, failed, Playing(q, failed, n, n + 1),
              probes + (if WantsProbe(q, failed, n) then {n} else {}), heals0,
              if WantsHeal(q, failed, n) then Healed(heals, q.attempts[n].at) else heals)
  {
    AcceptedIsChosen(q, failed, n);
    ProbedStep(q, failed, n, probes);
    HealsStep(q, failed, heals0, n);
    ProbedToEnd(q, failed, n + 1, probes + if WantsProbe(q, failed, n) then {n} else {});
    hide BestSoFar, Loudness, BotGateSeen, ProbedBefore, HealsAfter, Accepted, WantsProbe, WantsHeal, Healed, Asked;
    hide Chosen, Probed;
    assert EndsAt(q, failed, n + 1);
  }

  lemma WalkFalls(q: Request, failed: set<string>, best: Option<Candidate>, loudness: Option<real>,
                  botGated: bool, probes: set<nat>, heals0: seq<int>, heals: seq<int>)
    requires q.Valid() && Walking(q, failed, |q.attempts|, best, loudness, botGated, probes, heals0, heals)
    ensures Resolved(q, failed, Fallen(q, best, loudness, botGated), probes, heals0, heals)
    ensures Fallen(q, best, loudness, botGated)
            == if best.Some? then BuildStream(best.value, loudness)
               else if q.isUpload then UploadUnavailable
               else if q.rustypipe.Some? then Rustypipe(q.rustypipe.value)
               else if botGated then BotGated else AllClientsFailed
  {
    FallenIsChosen(q, failed, best);
    ProbedToEnd(q, failed, |q.attempts|, probes);
    assert EndsAt(q, failed, |q.attempts|);
    hide BestSoFar, Loudness, BotGateSeen, ProbedBefore, HealsAfter, Accepted, Chosen, Probed;
  }

  class Resolver {
    var webRemixFailed: set<string>
    var lastHeal: Option<int>
    ghost var heals: seq<int>
    ghost var probes: set<nat>

    ghost predicate Valid()
      reads this
    {
      HealsSpaced(heals) && lastHeal == (if heals == [] then None else Some(heals[|heals| - 1]))
    }

    constructor ()
      ensures webRemixFailed == {} && Valid()
    {
      webRemixFailed, lastHeal, heals, probes := {}, None, [], {};
    }

    method MarkWebRemixFailed(videoId: string)
      modifies this`webRemixFailed
      ensures webRemixFailed == old(webRemixFailed) + {videoId}
    {
      webRemixFailed := webRemixFailed + {videoId};
    }

    method ClearWebRemixFailures()
      modifies this`webRemixFailed
      ensures webRemixFailed == {}
    {
      webRemixFailed := {};
    }

    /** Claim the one self-heal allowed per window. */
    method TakeHealSlot(now: int) returns (taken: bool)
      requires Valid()
      modifies this`lastHeal, this`heals
      ensures Valid()
      ensures taken <==> (old(lastHeal).Some? ==> now - old(lastHeal).value >= HEAL_WINDOW)
      ensures heals == if taken then old(heals) + [now] else old(heals)
      ensures heals == Healed(old(heals), now)
    {
      if lastHeal.Some? && now - lastHeal.value < HEAL_WINDOW {
        return false;
      }
      lastHeal := Some(now);
      heals := heals + [now];
      taken := true;
    }

    /** The reply of one place, as the loop gets it; `gate` is set when it was the anti-bot gate. */
    method Ask(q: Request, i: nat) returns (reply: Option<Reply>, gate: bool)
      requires q.Valid() && i < |q.attempts|
      ensures reply == ReplyAt(q, webRemixFailed, i)
      ensures gate <==> Gates(q, webRemixFailed, i)
    {
      reply, gate := None, false;
      if i == 0 {
        var main := Main(q);
        if main.None? || !main.value.ok || MAIN_CLIENT in q.disabled
           || (!q.isUpload && q.videoId in webRemixFailed) {
          return;
        }
        reply := main;
        return;
      }
      var key := q.order[i - 1];
      if key in q.disabled || key !in q.clients || (q.clients[key].loginRequired && !q.loggedIn) {
        return;
      }
      var r := q.attempts[i].reply;
      if r.None? {
        return;
      }
      if !r.value.ok {
        gate := r.value.botGate;
        return;
      }
      reply := r;
    }

    /** Send a probe for the URL of one place. */
    method Probe(q: Request, i: nat) returns (ok: bool)
      requires i < |q.attempts|
      modifies this`probes
      ensures ok == q.attempts[i].headOk && probes == old(probes) + {i}
    {
      probes := probes + {i};
      ok := q.attempts[i].headOk;
    }

    /** One reply: accept it (`o`), remember it as the best skipped so far, or pass it by. */
    method Consider(q: Request, i: nat, reply: Option<Reply>, best0: Option<Candidate>, loudness0: Option<real>)
      returns (o: Option<Outcome>, best: Option<Candidate>, loudness: Option<real>)
      requires q.Valid() && i < |q.attempts| && Valid()
      requires reply == ReplyAt(q, webRemixFailed, i)
      requires loudness0 == Loudness(q, webRemixFailed, i) && BestSoFar(q, webRemixFailed, i, best0)
      modifies this`lastHeal, this`heals, this`probes
      ensures Valid()
      ensures heals == if WantsHeal(q, webRemixFailed, i) then Healed(old(heals), q.attempts[i].at) else old(heals)
      ensures probes == old(probes) + if WantsProbe(q, webRemixFailed, i) then {i} else {}
      ensures loudness == Loudness(q, webRemixFailed, i + 1)
      ensures o.Some? <==> Accepted(q, webRemixFailed, i)
      ensures o.Some? ==> o.value == Playing(q, webRemixFailed, i, i + 1)
      ensures o.None? ==> BestSoFar(q, webRemixFailed, i + 1, best)
    {
      hide Main, Asked, ReplyAt, BestSoFar, Better, IsHigh;
      o, best, loudness := None, best0, loudness0;
      if !Skipped(q, webRemixFailed, i) {
        BestSoFarSame(q, webRemixFailed, i, best0);
      }
      if reply.None? || reply.value.streaming.None? || reply.value.streaming.value.expires.None?
         || reply.value.streaming.value.choice.None? {
        return;
      }
      var format, key := reply.value.streaming.value.choice.value, Key(q, i);
      if loudness.None? {
        loudness := reply.value.loudness;
      }
      if q.attempts[i].url.None? {
        return;
      }
      var mainPing := MainPing(q);
      var ping := if mainPing.Some? then mainPing else PingOf(reply.value, key);
      var candidate := Candidate(i, format, q.attempts[i].url.value, ping);
      if q.preferHigh && !IsHigh(format) && HighAdvertised(q) {
        if best.None? || Better(format, best.value.format) {
          best := Some(candidate);
        }
        BestSoFarStep(q, webRemixFailed, i, best0);
      } else {
        var ok := q.isUpload;
        if !ok {
          ok := Probe(q, i);
        }
        if ok {
          o := Some(BuildStream(candidate, loudness));
        } else if (key in q.clients && q.clients[key].usesPoTokens) || key in NEEDS_N_TRANSFORM {
          var _ := TakeHealSlot(q.attempts[i].at);
        }
      }
    }

    /** One turn of the loop: ask, and consider what came. */
    method Turn(q: Request, i: nat, best0: Option<Candidate>, loudness0: Option<real>, gated0: bool,
                ghost heals0: seq<int>)
      returns (accepted: Option<Outcome>, best: Option<Candidate>, loudness: Option<real>, botGated: bool)
      requires q.Valid() && i < |q.attempts| && Valid()
      requires Walking(q, webRemixFailed, i, best0, loudness0, gated0, probes, heals0, heals)
      modifies this`lastHeal, this`heals, this`probes
      ensures Valid()
      ensures accepted.Some? ==> Resolved(q, webRemixFailed, accepted.value, probes, heals0, heals)
      ensures accepted.None? ==> Walking(q, webRemixFailed, i + 1, best, loudness, botGated, probes, heals0, heals)
    {
      ghost var failed, probed, healed := webRemixFailed, probes, heals;
      WalkingParts(q, failed, i, best0, loudness0, gated0, probes, heals0, heals);
      hide Resolved, Playing, Walking, Accepted, BestSoFar, Loudness, Main, ReplyAt, Gates;
      hide WantsProbe, WantsHeal, Healed, HealsAfter, HealsSpaced, Skipped, Asked, Usable, Heard;
      var reply, gate := Ask(q, i);
      botGated := gated0 || gate;
      accepted, best, loudness := Consider(q, i, reply, best0, loudness0);
      if accepted.Some? {
        WalkEnds(q, failed, i, best0, gated0, probed, heals0, healed);
      } else {
        WalkStep(q, failed, i, best0, best, gated0, probed, heals0, healed);
      }
    }

    /** The fallback loop: stop at the first accepted stream, else the remembered best, else give up. */
    method Resolve(q: Request) returns (o: Outcome)
      requires q.Valid() && Valid()
      modifies this`lastHeal, this`heals, this`probes
      ensures Resolved(q, webRemixFailed, o, probes, old(heals), heals)
      ensures Valid()
    {
      ghost var failed, heals0 := webRemixFailed, heals;
      probes := {};
      var best: Option<Candidate> := None;
      var loudness := if Main(q).Some? then Main(q).value.loudness else None;
      var botGated := Main(q).Some? && !Main(q).value.ok && Main(q).value.botGate;
      WalkStarts(q, failed, heals);
      assert Valid();
      hide Resolved, Playing, Walking, Accepted, BestSoFar, Loudness, Main, ReplyAt, Gates;
      hide WantsProbe, WantsHeal, Healed, HealsAfter, HealsSpaced, Skipped, Asked, Usable, Heard, Fallen, BuildStream;
      var i := 0;
      while i < |q.attempts|
        invariant 0 <= i <= |q.attempts| && failed == webRemixFailed
        invariant Valid()
        invariant Walking(q, failed, i, best, loudness, botGated, probes, heals0, heals)
      {
        var accepted;
        accepted, best, loudness, botGated := Turn(q, i, best, loudness, botGated, heals0);
        if accepted.Some? {
          return accepted.value;
        }
        i := i + 1;
      }
      WalkFalls(q, failed, best, loudness, botGated, probes, heals0, heals);
      if best.Some? {
        return BuildStream(best.value, loudness);
      }
      if q.isUpload {
        return UploadUnavailable;
      }
      if q.rustypipe.Some? {
        return Rustypipe(q.rustypipe.value);
      }
      o := if botGated then BotGated else AllClientsFailed;
    }
  }

  /** `probes` are the places before `n` that want a probe. */
  ghost predicate ProbedBefore(q: Request, failed: set<string>, n: nat, probes: set<nat>)
    requires q.Valid() && n <= |q.attempts|
  {
    forall i: nat :: i in probes <==> i < n && WantsProbe(q, failed, i)
  }

  lemma NoneProbed(q: Request, failed: set<string>)
    requires q.Valid()
    ensures ProbedBefore(q, failed, 0, {})
  {
  }

  lemma ProbedStep(q: Request, failed: set<string>, n: nat, probes: set<nat>)
    requires q.Valid() && n < |q.attempts| && ProbedBefore(q, failed, n, probes)
    ensures ProbedBefore(q, failed, n + 1, probes + if WantsProbe(q, failed, n) then {n} else {})
  {
    hide WantsProbe;
  }

  /** Where the loop ends, nothing later is probed. */
  lemma ProbedToEnd(q: Request, failed: set<string>, n: nat, probes: set<nat>)
    requires q.Valid() && n <= |q.attempts| && ProbedBefore(q, failed, n, probes)
    requires forall j :: 0 <= j < n - 1 ==> !Accepted(q, failed, j)
    requires n == |q.attempts| || (n > 0 && Accepted(q, failed, n - 1))
    ensures forall i: nat :: i in probes <==> i < |q.attempts| && Probed(q, failed, i)
  {
    hide WantsProbe, Accepted;
  }

  /** `best` is the first maximal stream skipped before `n`, if any was. */
  ghost predicate BestSoFar(q: Request, failed: set<string>, n: nat, best: Option<Candidate>)
    requires q.Valid() && n <= |q.attempts|
  {
    if best.Some?
    then BestSkipped(q, failed, n, best.value.place) && best.value == CandidateAt(q, failed, best.value.place)
    else forall j :: 0 <= j < n ==> !Skipped(q, failed, j)
  }

  lemma BestSoFarSame(q: Request, failed: set<string>, i: nat, best: Option<Candidate>)
    requires q.Valid() && i < |q.attempts| && BestSoFar(q, failed, i, best) && !Skipped(q, failed, i)
    ensures BestSoFar(q, failed, i + 1, best)
  {
  }

  lemma BestSoFarStep(q: Request, failed: set<string>, i: nat, best: Option<Candidate>)
    requires q.Valid() && i < |q.attempts| && BestSoFar(q, failed, i, best) && Skipped(q, failed, i)
    ensures BestSoFar(q, failed, i + 1,
      if best.None? || Better(FormatAt(q, failed, i), best.value.format)
      then Some(CandidateAt(q, failed, i)) else best)
  {
    if best.Some? {
      forall j | 0 <= j < i && Skipped(q, failed, j) {
        BetterIsStrictWeak(FormatAt(q, failed, i), best.value.format, FormatAt(q, failed, j));
      }
    }
  }
}
