/**
 What the comparison of streams ranks by, which clients may be asked, and what a chosen stream carries.
 */
module ChoiceLaws {
  import opened Common
  import opened Orchestrator

  // ---- comparing formats -----------------------------------------------------------------------

  const HIGH := Some("AUDIO_QUALITY_HIGH")
  const MEDIUM := Some("AUDIO_QUALITY_MEDIUM")
  const LOW := Some("AUDIO_QUALITY_LOW")

  predicate SameQuality(a: Format, b: Format) {
    a.quality == b.quality || (a.quality !in {HIGH, MEDIUM, LOW} && b.quality !in {HIGH, MEDIUM, LOW})
  }

  /** Quality comes first: HIGH over MEDIUM over LOW over anything unnamed, whatever the rest. */
  lemma QualityDecides(a: Format, b: Format)
    ensures a.quality == HIGH && b.quality != HIGH ==> Better(a, b)
    ensures a.quality == MEDIUM && b.quality !in {HIGH, MEDIUM} ==> Better(a, b)
    ensures a.quality == LOW && b.quality !in {HIGH, MEDIUM, LOW} ==> Better(a, b)
  {
  }

  function StereoOr(channels: Option<int>): int {
    if channels == None then 2 else channels.value
  }

  /** Then channels, two when nothing is said. */
  lemma ChannelsDecide(a: Format, b: Format)
    ensures SameQuality(a, b) && StereoOr(a.channels) > StereoOr(b.channels) ==> Better(a, b)
  {
  }

  /** Then the codec: opus over mp4a over anything else; then the bitrate; and nothing else. */
  lemma CodecThenBitrate(a: Format, b: Format)
    requires SameQuality(a, b) && StereoOr(a.channels) == StereoOr(b.channels)
    ensures Contains(a.mime, "opus") && !Contains(b.mime, "opus") ==> Better(a, b)
    ensures Contains(a.mime, "mp4a") && !Contains(b.mime, "opus") && !Contains(b.mime, "mp4a") ==> Better(a, b)
    ensures Contains(a.mime, "opus") && Contains(b.mime, "opus") ==> (Better(a, b) <==> a.bitrate > b.bitrate)
    ensures !Contains(a.mime, "opus") && !Contains(b.mime, "opus")
            && (Contains(a.mime, "mp4a") <==> Contains(b.mime, "mp4a"))
            ==> (Better(a, b) <==> a.bitrate > b.bitrate)
  {
    hide Contains;
  }

  /** A text contains what stands anywhere in it. */
  lemma ContainsAnywhere(before: string, sub: string, after: string)
    ensures Contains(before + sub + after, sub)
  {
    var s := before + sub + after;
    assert s[|before|..|before| + |sub|] == sub;
    assert OccursAt(s, sub, |before|);
  }

  // ---- who may be asked ------------------------------------------------------------------------

  /** A chosen stream comes from a known client, and one that needs a login only when logged in. */
  lemma ChosenClientIsAllowed(q: Request, failed: set<string>, o: Outcome)
    requires q.Valid() && Chosen(q, failed, o) && o.Stream?
    ensures o.place <= |q.order|
    ensures o.place > 0 ==> Key(q, o.place) in q.clients && (q.clients[Key(q, o.place)].loginRequired ==> q.loggedIn)
    ensures o.place == 0 ==> "WEB_REMIX" in q.clients && "WEB_REMIX" !in q.disabled
    ensures o.place == 0 && CreatorTookOver(q) ==> q.loggedIn && "WEB_CREATOR" in q.clients
  {
    ChoiceRespectsRequest(q, failed, o);
    hide Chosen, Better, IsHigh, HighAdvertised;
  }

  /** Uploads ignore the failure memory. */
  lemma UploadsForgetFailures(q: Request, failed: set<string>, failed': set<string>, i: nat)
    requires q.Valid() && q.isUpload && i < |q.attempts|
    ensures Asked(q, failed, i) <==> Asked(q, failed', i)
    ensures ReplyAt(q, failed, i) == ReplyAt(q, failed', i)
    ensures Accepted(q, failed, i) <==> Accepted(q, failed', i)
  {
  }

  /** A reply has a stream to offer: a lifetime, a format and a URL. */
  predicate Offers(q: Request, failed: set<string>, i: nat)
    requires q.Valid() && i < |q.attempts|
  {
    var r := ReplyAt(q, failed, i);
    r.Some? && r.value.streaming.Some? && q.attempts[i].url.Some?
    && r.value.streaming.value.expires.Some? && r.value.streaming.value.choice.Some?
  }

  /**
   A place is accepted exactly when it offers a stream that is not passed over for quality and answers its
   probe, which uploads need not; it is passed over exactly when HIGH is wanted and advertised and it is not.
   */
  lemma AcceptedMeans(q: Request, failed: set<string>, i: nat)
    requires q.Valid() && i < |q.attempts|
    ensures Accepted(q, failed, i) <==>
              Offers(q, failed, i) && !Skipped(q, failed, i) && (q.isUpload || q.attempts[i].headOk)
    ensures Skipped(q, failed, i) <==>
              Offers(q, failed, i) && q.preferHigh && HighAdvertised(q)
              && ReplyAt(q, failed, i).value.streaming.value.choice.value.quality != HIGH
  {
    hide ReplyAt, HighAdvertised;
  }

  /** HIGH is advertised by the main reply's formats alone, whichever client answered it. */
  lemma AdvertisedMeans(q: Request)
    ensures HighAdvertised(q) <==>
              Main(q).Some? && Main(q).value.streaming.Some? &&
              exists f :: f in Main(q).value.streaming.value.formats && f.quality == HIGH
    ensures "WEB_REMIX" in q.disabled || "WEB_REMIX" !in q.clients ==> Main(q).None?
  {
    if f :| Main(q).Some? && Main(q).value.streaming.Some?
            && f in Main(q).value.streaming.value.formats && f.quality == HIGH {
      assert IsHigh(f);
    }
  }

  /** Heals are at least ten minutes apart, and one is granted as soon as they are over. */
  lemma HealsAreTenMinutesApart(heals: seq<int>, now: int)
    ensures Healed(heals, now) == heals + [now] <==> heals == [] || now - heals[|heals| - 1] >= 600_000
    ensures Healed(heals, now) in {heals, heals + [now]}
  {
  }

  /** The retry is made for an age or login gate met while logged in, and only if it gets an answer does it count. */
  lemma RetryIsForGates(q: Request)
    ensures Main(q) != FirstMain(q) ==>
              q.loggedIn && q.mainReply.Some? && q.mainReply.value.ageGated && Main(q) == q.creatorReply
    ensures FirstMain(q).None? || !FirstMain(q).value.ageGated || !q.loggedIn || q.creatorReply.None? ==>
              Main(q) == FirstMain(q)
  {
  }

  // ---- what a stream carries -------------------------------------------------------------------

  /** Loudness known before place `n`: the main reply's, else that of the first stream heard that has one. */
  lemma {:induction false} LoudnessIsFirstHeard(q: Request, failed: set<string>, n: nat)
    requires q.Valid() && n <= |q.attempts|
    ensures Main(q).Some? && Main(q).value.loudness.Some? ==> Loudness(q, failed, n) == Main(q).value.loudness
    ensures (Main(q).None? || Main(q).value.loudness.None?) && Loudness(q, failed, n).Some? ==>
              exists i :: FirstLoud(q, failed, n, i) && Loudness(q, failed, n) == ReplyAt(q, failed, i).value.loudness
    ensures (Main(q).None? || Main(q).value.loudness.None?) && Loudness(q, failed, n).None? ==>
              forall i: nat :: i < n ==> !Loud(q, failed, i)
  {
    hide Main, ReplyAt;
    if n > 0 {
      LoudnessIsFirstHeard(q, failed, n - 1);
      var earlier := Loudness(q, failed, n - 1);
      if (Main(q).None? || Main(q).value.loudness.None?) && earlier.Some? {
        var i :| FirstLoud(q, failed, n - 1, i) && earlier == ReplyAt(q, failed, i).value.loudness;
        assert FirstLoud(q, failed, n, i);
      } else if (Main(q).None? || Main(q).value.loudness.None?) && Loudness(q, failed, n).Some? {
        assert FirstLoud(q, failed, n, n - 1);
      }
    }
  }

  /** A stream was heard at the place and its reply has a loudness. */
  ghost predicate Loud(q: Request, failed: set<string>, i: nat)
    requires q.Valid()
  {
    i < |q.attempts| && Heard(q, failed, i) && ReplyAt(q, failed, i).value.loudness.Some?
  }

  ghost predicate FirstLoud(q: Request, failed: set<string>, n: nat, i: nat)
    requires q.Valid()
  {
    i < n && Loud(q, failed, i) && forall j: nat :: j < i ==> !Loud(q, failed, j)
  }

  /**
   A chosen stream has the URL of its place, its own loudness before any other, and pings the main
   client's page, the creator's after a retry, or its own when there is none.
   */
  lemma StreamCarries(q: Request, failed: set<string>, o: Outcome)
    requires q.Valid() && Chosen(q, failed, o) && o.Stream?
    ensures o.place < |q.attempts| && q.attempts[o.place].url == Some(o.url)
    ensures Heard(q, failed, o.place)
    ensures FormatAt(q, failed, o.place).loudness.Some? ==> o.loudness == FormatAt(q, failed, o.place).loudness
    ensures Main(q).Some? && Main(q).value.pingUrl.Some? ==>
              var client := if CreatorTookOver(q) then "WEB_CREATOR" else "WEB_REMIX";
              o.ping == Some(Ping(Main(q).value.pingUrl.value, client))
    ensures Main(q).None? || Main(q).value.pingUrl.None? ==>
              var own := ReplyAt(q, failed, o.place).value.pingUrl;
              o.ping == if own.Some? then Some(Ping(own.value, Key(q, o.place))) else None
  {
    hide Better, IsHigh, HighAdvertised, CreatorTookOver, FirstMain;
  }

  predicate MainGates(q: Request) {
    Main(q).Some? && Main(q).value.botGate && !Main(q).value.ok
  }

  ghost predicate GatesAt(q: Request, failed: set<string>, i: nat)
    requires q.Valid()
  {
    i < |q.attempts| && Gates(q, failed, i)
  }

  /** The gate is blamed exactly when a client that was asked answered with it and nothing else was found. */
  lemma GateIsBlamed(q: Request, failed: set<string>, o: Outcome)
    requires q.Valid() && Chosen(q, failed, o)
    ensures o.BotGated? || o.AllClientsFailed? ==> !q.isUpload && q.rustypipe.None?
    ensures o.BotGated? ==> MainGates(q) || exists i: nat :: GatesAt(q, failed, i)
    ensures o.AllClientsFailed? ==> !MainGates(q) && forall i: nat :: !GatesAt(q, failed, i)
    ensures o.UploadUnavailable? ==> q.isUpload
    ensures o.Rustypipe? ==> q.rustypipe == Some(o.url) && !q.isUpload
  {
    hide Main, Asked, Accepted, Skipped, Playing, FirstAccepted, BestSkipped;
    if i: nat :| GatesAt(q, failed, i) {
      assert Gates(q, failed, i);
    }
    if BotGateSeen(q, failed, |q.attempts|) && !MainGates(q) {
      var i :| 0 < i < |q.attempts| && Asked(q, failed, i) && q.attempts[i].reply.Some?
               && !q.attempts[i].reply.value.ok && q.attempts[i].reply.value.botGate;
      assert GatesAt(q, failed, i);
    }
  }

  /** A self-heal follows a failed probe of a web client, never an answered one or an upload's. */
  lemma HealsHaveCause(q: Request, failed: set<string>, i: nat)
    requires q.Valid() && i < |q.attempts|
    ensures WantsHeal(q, failed, i) ==> !q.isUpload && !q.attempts[i].headOk && !Accepted(q, failed, i)
    ensures WantsProbe(q, failed, i) && !q.attempts[i].headOk ==>
              (WantsHeal(q, failed, i) <==> Key(q, i) in ["WEB", "WEB_REMIX", "WEB_CREATOR", "TVHTML5"]
                                            || (Key(q, i) in q.clients && q.clients[Key(q, i)].usesPoTokens))
  {
    hide Usable, Skipped;
  }
}
