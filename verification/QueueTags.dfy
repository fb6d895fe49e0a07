/**
  Queue events: the client's tag printer and parser, the relay's parser, and the relay patch that
  switches a played video off.
 */
module QueueTags {
  import opened Wrappers
  import opened Decimal
  import opened Numbers

  type Tag = seq<string>

  datatype CondTrack = CondTrack(videoID: string, title: string, duration: int, active: bool)

  datatype QueueTrack = QueueTrack(
    videoId: string, title: string, duration: Number, active: Option<bool>, image: Option<string>)

  // ── relay/conductor.go ──────────────────────────────────────────────────────

  predicate IsTrackTag(t: Tag) {
    |t| >= 2 && t[0] == "track"
  }

  predicate IsVideoTag(t: Tag) {
    IsTrackTag(t) && "yt:" <= t[1]
  }

  predicate IsOff(t: Tag) {
    |t| >= 5 && t[4] == "off"
  }

  function TrimYt(s: string): string {
    if "yt:" <= s then s[3..] else s
  }

  function Track(t: Tag): CondTrack
    requires IsVideoTag(t)
  {
    CondTrack(t[1][3..], if |t| >= 3 then t[2] else t[1], if |t| >= 4 then Atoi(t[3]) else 0, !IsOff(t))
  }

  function Parse(tags: seq<Tag>): (r: seq<CondTrack>)
    ensures |r| <= |tags|
  {
    if tags == [] then []
    else if IsVideoTag(tags[0]) then [Track(tags[0])] + Parse(tags[1..])
    else Parse(tags[1..])
  }

  lemma ParseNothing()
    ensures Parse([]) == []
  {
  }

  method ParseQueueTracks(tags: seq<Tag>) returns (out: seq<CondTrack>)
    ensures out == Parse(tags)
  {
    hide Atoi, Parse;
    out := [];
    ParseNothing();
    for i := 0 to |tags|
      invariant Parse(tags) == out + Parse(tags[i..])
    {
      var t := tags[i];
      ParseCons(t, tags[i + 1..]);
      assert tags[i..] == [t] + tags[i + 1..];
      if |t| < 2 || t[0] != "track" || !("yt:" <= t[1]) {
        continue;
      }
      var title := t[1];
      if |t| >= 3 {
        title := t[2];
      }
      var dur := 0;
      if |t| >= 4 {
        dur := Atoi(t[3]);
      }
      var active := !(|t| >= 5 && t[4] == "off");
      out := out + [CondTrack(TrimYt(t[1]), title, dur, active)];
    }
  }

  /** The patch of one tag: an active copy of the video gets a fifth field `off`. */
  predicate Hit(t: Tag, v: string) {
    IsTrackTag(t) && TrimYt(t[1]) == v && !IsOff(t)
  }

  function Padded(t: Tag): (r: Tag)
    ensures |r| >= 5 && t <= r && (|t| >= 5 ==> r == t)
    ensures forall i | |t| <= i < |r| :: r[i] == ""
    decreases 5 - |t|
  {
    if |t| >= 5 then t else Padded(t + [""])
  }

  function MarkTag(t: Tag, v: string): Tag {
    if Hit(t, v) then Padded(t)[4 := "off"] else t
  }

  function MarkTags(tags: seq<Tag>, v: string): seq<Tag> {
    if tags == [] then []
    else if IsTrackTag(tags[0]) then [MarkTag(tags[0], v)] + MarkTags(tags[1..], v)
    else MarkTags(tags[1..], v)
  }

  function Header(club: string, dj: string): seq<Tag> {
    [["h", club], ["d", dj + ":" + club], ["p", dj]]
  }

  function Patched(club: string, dj: string, tags: seq<Tag>, v: string): seq<Tag> {
    Header(club, dj) + MarkTags(tags, v)
  }

  predicate AnyHit(tags: seq<Tag>, v: string) {
    exists t :: t in tags && Hit(t, v)
  }

  /** The tag list of the relay's off-patch, and whether there was anything to switch off. */
  method MarkedTags(club: string, dj: string, tags: seq<Tag>, v: string)
    returns (newTags: seq<Tag>, marked: bool)
    ensures newTags == Patched(club, dj, tags, v)
    ensures marked <==> AnyHit(tags, v)
  {
    newTags := Header(club, dj);
    marked := false;
    for i := 0 to |tags|
      invariant Patched(club, dj, tags, v) == newTags + MarkTags(tags[i..], v)
      invariant marked <==> AnyHit(tags[..i], v)
    {
      var t := tags[i];
      assert tags[i..][0] == t && tags[i..][1..] == tags[i + 1..];
      assert tags[..i + 1] == tags[..i] + [t];
      assert forall x :: x in tags[..i + 1] <==> x in tags[..i] || x == t;
      if |t| < 2 || t[0] != "track" {
        continue;
      }
      var tag := t;
      if TrimYt(tag[1]) == v && (|tag| < 5 || tag[4] != "off") {
        while |tag| < 5
          invariant t <= tag && Padded(tag) == Padded(t)
          decreases 5 - |tag|
        {
          tag := tag + [""];
        }
        tag := tag[4 := "off"];
        marked := true;
        assert Hit(t, v);
      }
      newTags := newTags + [tag];
    }
    assert tags[..|tags|] == tags;
  }

  // ── patching commutes with parsing ──────────────────────────────────────────

  function SwitchOff(ts: seq<CondTrack>, v: string): (r: seq<CondTrack>)
    ensures |r| == |ts|
    ensures forall i | 0 <= i < |r| :: r[i] == if ts[i].videoID == v then ts[i].(active := false) else ts[i]
  {
    if ts == [] then []
    else [if ts[0].videoID == v then ts[0].(active := false) else ts[0]] + SwitchOff(ts[1..], v)
  }

  /** Same videos, durations and flags; titles may differ. */
  ghost predicate SameButTitles(a: seq<CondTrack>, b: seq<CondTrack>) {
    |a| == |b| && forall i | 0 <= i < |a| :: a[i] == b[i].(title := a[i].title)
  }

  predicate Untitled(t: Tag, v: string) {
    IsVideoTag(t) && Hit(t, v) && |t| < 3
  }

  lemma MarkTagParses(t: Tag, v: string)
    requires IsVideoTag(t)
    ensures var m := MarkTag(t, v);
            && IsVideoTag(m)
            && m[1] == t[1]
            && Track(m).active == (Track(t).active && Track(t).videoID != v)
            && Track(m).duration == Track(t).duration
            && (Track(m).title == Track(t).title <==> !Untitled(t, v))
  {
    var p := Padded(t);
    assert |t| == 3 ==> p[3] == "";
    assert forall i | 0 <= i < |t| :: p[i] == t[i];
    assert Atoi("") == 0;
  }

  lemma {:induction false} MarkTagsParse(tags: seq<Tag>, v: string)
    ensures SameButTitles(Parse(MarkTags(tags, v)), SwitchOff(Parse(tags), v))
    ensures Parse(MarkTags(tags, v)) == SwitchOff(Parse(tags), v) <==> forall t | t in tags :: !Untitled(t, v)
  {
    hide MarkTag, Track, SameButTitles, Untitled, Hit;
    NothingDiffers();
    if tags != [] {
      var t, rest := tags[0], tags[1..];
      MarkTagsParse(rest, v);
      assert forall x :: x in tags <==> x == t || x in rest;
      if IsVideoTag(t) {
        MarkTagParses(t, v);
        var m := MarkTag(t, v);
        ParseCons(m, MarkTags(rest, v));
        TrackFields(t, m, v);
        SwitchOffCons(Track(t), Parse(rest), v);
        SameCons(Track(m), Parse(MarkTags(rest, v)),
                 if Track(t).videoID == v then Track(t).(active := false) else Track(t), SwitchOff(Parse(rest), v));
      } else {
        NotVideoNotUntitled(t, v);
        if IsTrackTag(t) {
          NotVideo(t, v);
          ParseCons(MarkTag(t, v), MarkTags(rest, v));
        }
      }
    }
  }

  lemma NothingDiffers()
    ensures SameButTitles([], [])
  {
  }

  lemma NotVideoNotUntitled(t: Tag, v: string)
    requires !IsVideoTag(t)
    ensures !Untitled(t, v)
  {
  }

  lemma SameCons(x: CondTrack, a: seq<CondTrack>, y: CondTrack, b: seq<CondTrack>)
    requires SameButTitles(a, b) && x == y.(title := x.title)
    ensures SameButTitles([x] + a, [y] + b)
    ensures [x] + a == [y] + b <==> x == y && a == b
  {
    assert ([x] + a)[0] == x && ([y] + b)[0] == y;
    assert ([x] + a)[1..] == a && ([y] + b)[1..] == b;
  }

  lemma TrackFields(t: Tag, m: Tag, v: string)
    requires IsVideoTag(t) && IsVideoTag(m) && m[1] == t[1]
    requires Track(m).active == (Track(t).active && Track(t).videoID != v)
    requires Track(m).duration == Track(t).duration
    ensures var w := if Track(t).videoID == v then Track(t).(active := false) else Track(t);
            Track(m) == w.(title := Track(m).title) && (Track(m) == w <==> Track(m).title == Track(t).title)
  {
  }

  lemma ParseCons(t: Tag, tags: seq<Tag>)
    ensures Parse([t] + tags) == if IsVideoTag(t) then [Track(t)] + Parse(tags) else Parse(tags)
  {
    assert ([t] + tags)[1..] == tags;
  }

  lemma SwitchOffCons(x: CondTrack, ts: seq<CondTrack>, v: string)
    ensures SwitchOff([x] + ts, v) == [if x.videoID == v then x.(active := false) else x] + SwitchOff(ts, v)
  {
    assert ([x] + ts)[1..] == ts;
  }

  lemma NotVideo(t: Tag, v: string)
    requires IsTrackTag(t) && !IsVideoTag(t)
    ensures !IsVideoTag(MarkTag(t, v))
  {
    assert Padded(t)[1] == t[1];
  }

  /**
    Parsing the patched tags switches off every copy of the video and nothing else, and equals
    switching off the parsed queue exactly when every copy that is hit carries a title.
   */
  lemma {:induction false} PatchCommutes(club: string, dj: string, tags: seq<Tag>, v: string)
    ensures SameButTitles(Parse(Patched(club, dj, tags, v)), SwitchOff(Parse(tags), v))
    ensures Parse(Patched(club, dj, tags, v)) == SwitchOff(Parse(tags), v)
       <==> forall t | t in tags :: !Untitled(t, v)
  {
    MarkTagsParse(tags, v);
    var m := MarkTags(tags, v);
    var h, d, p := ["h", club], ["d", dj + ":" + club], ["p", dj];
    ParseCons(h, [d] + ([p] + m));
    ParseCons(d, [p] + m);
    ParseCons(p, m);
    assert Patched(club, dj, tags, v) == [h] + ([d] + ([p] + m));
    assert h[0] != "track" && d[0] != "track" && p[0] != "track";
  }

  /** Without a hit there was no active copy to switch off. */
  lemma {:induction false} NoHitNoChange(tags: seq<Tag>, v: string)
    requires !AnyHit(tags, v)
    ensures SwitchOff(Parse(tags), v) == Parse(tags)
  {
    if tags != [] {
      assert tags[0] in tags;
      assert forall t | t in tags[1..] :: t in tags;
      NoHitNoChange(tags[1..], v);
      if IsVideoTag(tags[0]) {
        SwitchOffCons(Track(tags[0]), Parse(tags[1..]), v);
      }
    }
  }

  // ── frontend/src/lib/nostr/queue.svelte.ts ──────────────────────────────────

  predicate IsIdChar(c: char) {
    'A' <= c <= 'Z' || 'a' <= c <= 'z' || '0' <= c <= '9' || c == '_' || c == '-'
  }

  predicate IsValidVideoId(id: string) {
    |id| == 11 && forall c | c in id :: IsIdChar(c)
  }

  function TsTrack(t: Tag): QueueTrack
    requires IsVideoTag(t)
  {
    QueueTrack(
      t[1][3..],
      if |t| >= 3 then t[2] else t[1],
      if |t| >= 4 then NumberOrZero(t[3]) else Finite(0.0),
      Some(!IsOff(t)),
      if |t| >= 6 && t[5] != "" then Some(t[5]) else None)
  }

  function ParseTracks(tags: seq<Tag>): seq<QueueTrack> {
    if tags == [] then []
    else if IsVideoTag(tags[0]) && IsValidVideoId(tags[0][1][3..]) then [TsTrack(tags[0])] + ParseTracks(tags[1..])
    else ParseTracks(tags[1..])
  }

  /** One printed tag; `show` is JavaScript's `String` on numbers. */
  function PrintTrack(t: QueueTrack, show: Number -> string): Tag {
    var base := ["track", "yt:" + t.videoId, t.title, show(t.duration)];
    if t.image.Some? && t.image.value != "" then base + [if t.active == Some(false) then "off" else "", t.image.value]
    else if t.active == Some(false) then base + ["off"]
    else base
  }

  function PrintTracks(ts: seq<QueueTrack>, show: Number -> string): seq<Tag> {
    if ts == [] then [] else [PrintTrack(ts[0], show)] + PrintTracks(ts[1..], show)
  }

  function PrintQueue(group: string, ts: seq<QueueTrack>, show: Number -> string): seq<Tag> {
    [["h", group], ["d", group]] + PrintTracks(ts, show)
  }

  /** An absent active flag means active, an empty cover means none, and no number means zero. */
  function Normal(t: QueueTrack): QueueTrack {
    t.(duration := OrZero(t.duration), active := Some(t.active != Some(false)), image := if t.image == Some("")
        then None else t.image)
  }

  function NormalValid(ts: seq<QueueTrack>): seq<QueueTrack> {
    if ts == [] then []
    else if IsValidVideoId(ts[0].videoId) then [Normal(ts[0])] + NormalValid(ts[1..])
    else NormalValid(ts[1..])
  }

  lemma PrintTrackParses(t: QueueTrack, show: Number -> string)
    requires Prints(show) && IsDouble(t.duration)
    ensures IsVideoTag(PrintTrack(t, show)) && PrintTrack(t, show)[1][3..] == t.videoId
    ensures TsTrack(PrintTrack(t, show)) == Normal(t)
  {
    hide JsNumber, IsDouble;
    assert JsNumber(show(t.duration)) == t.duration;
    var s := "yt:" + t.videoId;
    assert "yt:" <= s && s[3..] == t.videoId;
  }

  /** A whole duration that counts exactly reads the same to the relay. */
  lemma PrintTrackParsesAtRelay(t: QueueTrack, n: nat, show: Number -> string)
    requires Prints(show) && t.duration == Finite(n as real) && n <= MAX_SAFE
    ensures IsVideoTag(PrintTrack(t, show)) && ReadsAlike(PrintTrack(t, show)[3])
    ensures Track(PrintTrack(t, show)) == CondTrack(t.videoId, t.title, n, t.active != Some(false))
  {
    hide ReadsAlike, Plain, NumberOrZero, Atoi, Itoa;
    ItoaIsPlain(n);
    PlainReadsAlike(Itoa(n));
    var s := "yt:" + t.videoId;
    assert "yt:" <= s && s[3..] == t.videoId;
  }

  lemma TsParseCons(t: Tag, tags: seq<Tag>)
    ensures ParseTracks([t] + tags)
         == if IsVideoTag(t) && IsValidVideoId(t[1][3..]) then [TsTrack(t)] + ParseTracks(tags) else ParseTracks(tags)
  {
    assert ([t] + tags)[1..] == tags;
  }

  lemma {:induction false} PrintTracksParse(ts: seq<QueueTrack>, show: Number -> string)
    requires Prints(show) && forall t | t in ts :: IsDouble(t.duration)
    ensures ParseTracks(PrintTracks(ts, show)) == NormalValid(ts)
  {
    hide PrintTrack, TsTrack, Normal, Prints, IsDouble;
    if ts != [] {
      assert ts[0] in ts && forall t | t in ts[1..] :: t in ts;
      PrintTracksParse(ts[1..], show);
      PrintTrackParses(ts[0], show);
      TsParseCons(PrintTrack(ts[0], show), PrintTracks(ts[1..], show));
    }
  }

  /** Printing a queue and parsing it back normalises every track with a valid id and drops the rest. */
  lemma QueueRoundTrip(group: string, ts: seq<QueueTrack>, show: Number -> string)
    requires Prints(show) && forall t | t in ts :: IsDouble(t.duration)
    ensures ParseTracks(PrintQueue(group, ts, show)) == NormalValid(ts)
  {
    hide Prints, IsDouble;
    PrintTracksParse(ts, show);
    var h, d := ["h", group], ["d", group];
    assert h[0] != "track" && d[0] != "track";
    assert PrintQueue(group, ts, show) == [h] + ([d] + PrintTracks(ts, show));
    TsParseCons(h, [d] + PrintTracks(ts, show));
    TsParseCons(d, PrintTracks(ts, show));
  }

  // ── the two parsers agree ───────────────────────────────────────────────────

  /** What both sides show of a track. */
  datatype Displayed = Displayed(videoId: string, title: string, duration: Number, active: bool)

  function ByClient(t: QueueTrack): Displayed {
    Displayed(t.videoId, t.title, t.duration, t.active != Some(false))
  }

  function ByRelay(t: CondTrack): Displayed {
    Displayed(t.videoID, t.title, Finite(t.duration as real), t.active)
  }

  function AllByClient(ts: seq<QueueTrack>): seq<Displayed> {
    if ts == [] then [] else [ByClient(ts[0])] + AllByClient(ts[1..])
  }

  /** The relay's tracks that carry a valid id. */
  function ValidByRelay(ts: seq<CondTrack>): seq<Displayed> {
    if ts == [] then []
    else if IsValidVideoId(ts[0].videoID) then [ByRelay(ts[0])] + ValidByRelay(ts[1..])
    else ValidByRelay(ts[1..])
  }

  /** A duration that matters is spelled in a way both sides read alike. */
  predicate DurationAlike(t: Tag) {
    IsVideoTag(t) && IsValidVideoId(t[1][3..]) && |t| >= 4 ==> ReadsAlike(t[3])
  }

  lemma TrackAlike(t: Tag)
    requires IsVideoTag(t) && IsValidVideoId(t[1][3..])
    ensures ByClient(TsTrack(t)) == ByRelay(Track(t)) <==> DurationAlike(t)
  {
    hide ReadsAlike, NumberOrZero, Atoi;
    if |t| >= 4 { ReadsAlikeExact(t[3]); }
  }

  lemma ConsAlike(x: Displayed, a: seq<Displayed>, y: Displayed, b: seq<Displayed>)
    ensures [x] + a == [y] + b <==> x == y && a == b
  {
    assert ([x] + a)[0] == x && ([y] + b)[0] == y && ([x] + a)[1..] == a && ([y] + b)[1..] == b;
  }

  lemma ConsOnce(t: Tag, rest: seq<Tag>)
    ensures var both := IsVideoTag(t) && IsValidVideoId(t[1][3..]);
            && AllByClient(ParseTracks([t] + rest))
               == (if both then [ByClient(TsTrack(t))] + AllByClient(ParseTracks(rest))
                   else AllByClient(ParseTracks(rest)))
            && ValidByRelay(Parse([t] + rest))
               == (if both then [ByRelay(Track(t))] + ValidByRelay(Parse(rest)) else ValidByRelay(Parse(rest)))
  {
    hide NumberOrZero, Atoi, IsOff;
    TsParseCons(t, rest);
    ParseCons(t, rest);
    if IsVideoTag(t) {
      assert ([TsTrack(t)] + ParseTracks(rest))[1..] == ParseTracks(rest);
      assert ([Track(t)] + Parse(rest))[1..] == Parse(rest);
    }
  }

  /**
    Client and relay see the same videos, in the same order with the same ids, titles, durations and
    active flags, if and only if every duration of a valid video is spelled alike for both.
   */
  lemma {:induction false} ParsersAgreeExactly(tags: seq<Tag>)
    ensures AllByClient(ParseTracks(tags)) == ValidByRelay(Parse(tags)) <==> forall t | t in tags :: DurationAlike(t)
  {
    hide DurationAlike, TsTrack, Track, ByClient, ByRelay, IsValidVideoId;
    if tags != [] {
      var t, rest := tags[0], tags[1..];
      assert tags == [t] + rest && forall x :: x in tags <==> x == t || x in rest;
      ParsersAgreeExactly(rest);
      ConsOnce(t, rest);
      if IsVideoTag(t) && IsValidVideoId(t[1][3..]) {
        TrackAlike(t);
        ConsAlike(ByClient(TsTrack(t)), AllByClient(ParseTracks(rest)), ByRelay(Track(t)), ValidByRelay(Parse(rest)));
      } else {
        OtherTagsDoNotMatter(t);
      }
    }
  }

  lemma OtherTagsDoNotMatter(t: Tag)
    requires !(IsVideoTag(t) && IsValidVideoId(t[1][3..]))
    ensures DurationAlike(t)
  {
  }

  /** Hence they agree on a whole queue of plain durations, as the client prints them. */
  lemma PlainQueuesAgree(tags: seq<Tag>)
    requires forall t | t in tags && |t| >= 4 :: Plain(t[3])
    ensures AllByClient(ParseTracks(tags)) == ValidByRelay(Parse(tags))
  {
    hide ReadsAlike, Plain;
    forall t | t in tags ensures DurationAlike(t) {
      if |t| >= 4 { PlainReadsAlike(t[3]); }
    }
    ParsersAgreeExactly(tags);
  }
}
