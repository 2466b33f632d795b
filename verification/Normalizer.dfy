/**
 The tk2sd request normaliser, the idempotent replay that runs it again under a made-up
 capability, and the structural checks the input materialiser repeats before execution.
 */
module Normalizer {
  import opened Domain
  import opened ModelRouting

  datatype Content = Content(
    kind: string, text: string,
    image: Option<string>, video: Option<string>, audio: Option<string>, role: string)

  datatype Request = Request(
    model: string, content: seq<Content>, resolution: string, duration: int, ratio: string,
    callback: Option<string>, watermark: Option<bool>, durationPresent: bool)

  datatype Normalized = Normalized(
    request: Request, scenario: string, prompt: string, images: nat, requirements: Requirements)

  datatype Outcome = Accepted(n: Normalized) | Invalid | ModelInput

  /** Tests on single strings: blankness, model ids and media addresses (by content kind). */
  datatype Checks = Checks(blank: string -> bool, modelId: string -> bool, source: (string, string) -> bool)

  /* ---------- Vocabulary ---------- */

  function Media(x: Content): Option<string> {
    if x.kind == "image_url" then x.image
    else if x.kind == "video_url" then x.video
    else if x.kind == "audio_url" then x.audio
    else None
  }

  function CountKind(s: seq<Content>, kind: string): (n: nat)
    ensures n <= |s|
  {
    if s == [] then 0 else
    CountKind(s[..|s| - 1], kind) + if s[|s| - 1].kind == kind then 1 else 0
  }

  function CountMedia(s: seq<Content>): nat {
    |s| - CountKind(s, "text")
  }

  function CountFirst(s: seq<Content>): (n: nat)
    ensures n <= |s|
  {
    if s == [] then 0 else
    CountFirst(s[..|s| - 1]) + if s[|s| - 1].kind == "image_url" && s[|s| - 1].role == "first_frame" then 1 else 0
  }

  /** The text of the last text element. */
  function Prompt(s: seq<Content>): string {
    if s == [] then "" else
    if s[|s| - 1].kind == "text" then s[|s| - 1].text else Prompt(s[..|s| - 1])
  }

  function Roles(s: seq<Content>): seq<string> {
    if s == [] then [] else
    Roles(s[..|s| - 1]) + if s[|s| - 1].kind == "text" then [] else [s[|s| - 1].role]
  }

  /** What stands before the first colon. */
  function Scheme(url: string): string {
    if url == "" || url[0] == ':' then "" else [url[0]] + Scheme(url[1..])
  }

  function Sources(s: seq<Content>): seq<string> {
    if s == [] then [] else
    Sources(s[..|s| - 1]) +
      if s[|s| - 1].kind == "text" || Media(s[|s| - 1]).None? then [] else [Scheme(Media(s[|s| - 1]).value)]
  }

  function TrimUrl(kind: string): string {
    if |kind| >= 4 && kind[|kind| - 4..] == "_url" then kind[..|kind| - 4] else kind
  }

  /** The role a media element gets when it names none. */
  function DefaultRole(x: Content, mediaCount: nat, i2va: bool): Content {
    if x.kind == "text" || x.role != "" then x
    else if x.kind == "image_url" && mediaCount == 1 && i2va then x.(role := "first_frame")
    else x.(role := "reference_" + TrimUrl(x.kind))
  }

  function Filled(s: seq<Content>, mediaCount: nat, i2va: bool): (t: seq<Content>)
    ensures |t| == |s|
    ensures forall i | 0 <= i < |s| :: t[i] == DefaultRole(s[i], mediaCount, i2va)
  {
    seq(|s|, i requires 0 <= i < |s| => DefaultRole(s[i], mediaCount, i2va))
  }

  predicate TextOk(x: Content, k: Checks) {
    !k.blank(x.text) && |x.text| <= 14000 && x.role == "" && x.image.None? && x.video.None? && x.audio.None?
  }

  predicate ForeignReference(url: string) {
    "mm_file:" <= url || "asset:" <= url || "proxy-input:" <= url
  }

  predicate MediaOk(x: Content, k: Checks) {
    var media := Media(x);
    && media.Some? && x.text == "" && !ForeignReference(media.value) && k.source(x.kind, media.value)
    && (x.kind == "image_url" ==>
        x.video.None? && x.audio.None? && (x.role == "first_frame" || x.role == "reference_image"))
    && (x.kind == "video_url" ==> x.image.None? && x.audio.None? && x.role == "reference_video")
    && (x.kind == "audio_url" ==> x.image.None? && x.video.None? && x.role == "reference_audio")
  }

  predicate ItemOk(x: Content, k: Checks) {
    if x.kind == "text" then TextOk(x, k) else MediaOk(x, k)
  }

  predicate CountsOk(s: seq<Content>) {
    && CountKind(s, "text") == 1 && CountKind(s, "image_url") <= 9
    && CountKind(s, "video_url") <= 3 && CountKind(s, "audio_url") <= 3 && CountMedia(s) <= 12
    && (CountFirst(s) > 0 ==> CountFirst(s) == 1 && CountMedia(s) == 1)
  }

  function Scenario(s: seq<Content>): string {
    if CountFirst(s) > 0 then "i2va" else if CountMedia(s) > 0 then "r2va" else "t2va"
  }

  function Duration(r: Request): int {
    if r.duration == 0 && !r.durationPresent then 5 else r.duration
  }

  /* ---------- Normalisation ---------- */

  function Needs(r: Request): Requirements {
    Requirements(Scenario(r.content), r.duration, r.resolution, Roles(r.content), Sources(r.content),
                 CountMedia(r.content))
  }

  function Build(r: Request): Normalized {
    Normalized(r, Scenario(r.content), Prompt(r.content), CountKind(r.content, "image_url"), Needs(r))
  }

  predicate HeaderOk(r: Request, k: Checks) {
    && Duration(r) > 0 && 1 <= |r.content| <= 13 && |r.resolution| <= 32 && |r.ratio| <= 32
    && (r.callback.Some? ==> !k.blank(r.callback.value))
  }

  function Prepared(r: Request, c: Capability): Request {
    r.(duration := Duration(r), content := Filled(r.content, CountMedia(r.content), HasMode(c, "i2va")))
  }

  /** What normalisation has to deliver. */
  function Normal(r: Request, c: Capability, k: Checks): Outcome {
    var p := Prepared(r, c);
    if !k.modelId(r.model) || !HeaderOk(r, k) || !CountsOk(p.content)
       || exists x | x in p.content :: !ItemOk(x, k)
    then Invalid
    else if Accepts(c, Needs(p)) then Accepted(Build(p))
    else ModelInput
  }

  method TotalMedia(s: seq<Content>) returns (n: nat)
    ensures n == CountMedia(s)
  {
    n := 0;
    for i := 0 to |s|
      invariant n == CountMedia(s[..i])
    {
      assert s[..i + 1][..i] == s[..i];
      if s[i].kind != "text" { n := n + 1; }
    }
    assert s[..|s|] == s;
  }

  datatype Tally = Tally(texts: nat, images: nat, videos: nat, audios: nat, first: nat, prompt: string)

  function TallyOf(s: seq<Content>): Tally {
    Tally(CountKind(s, "text"), CountKind(s, "image_url"), CountKind(s, "video_url"), CountKind(s, "audio_url"),
          CountFirst(s), Prompt(s))
  }

  /** One element's share in the counters. */
  function Add(t: Tally, x: Content): Tally {
    if x.kind == "text" then t.(texts := t.texts + 1, prompt := x.text)
    else if x.kind == "image_url" then
      t.(images := t.images + 1, first := t.first + if x.role == "first_frame" then 1 else 0)
    else if x.kind == "video_url" then t.(videos := t.videos + 1)
    else if x.kind == "audio_url" then t.(audios := t.audios + 1)
    else t
  }

  lemma NoTally()
    ensures TallyOf([]) == Tally(0, 0, 0, 0, 0, "")
  {
  }

  lemma TallyGrows(s: seq<Content>, x: Content)
    ensures TallyOf(s + [x]) == Add(TallyOf(s), x)
  {
    assert (s + [x])[..|s|] == s;
  }

  /** The scan as the program does it: roles are filled in and the counters kept on the way. */
  method Scan(s: seq<Content>, mediaCount: nat, i2va: bool, k: Checks)
    returns (ok: bool, content: seq<Content>, t: Tally)
    ensures ok <==> forall x | x in Filled(s, mediaCount, i2va) :: ItemOk(x, k)
    ensures ok ==> content == Filled(s, mediaCount, i2va) && t == TallyOf(content)
  {
    hide ItemOk, TallyOf, Add;
    NoTally();
    ghost var filled := Filled(s, mediaCount, i2va);
    content, t, ok := s, Tally(0, 0, 0, 0, 0, ""), true;
    for i := 0 to |s|
      invariant |content| == |s| && t == TallyOf(filled[..i])
      invariant forall j | 0 <= j < |s| :: content[j] == if j < i then filled[j] else s[j]
      invariant forall j | 0 <= j < i :: ItemOk(filled[j], k)
    {
      var item := DefaultRole(content[i], mediaCount, i2va);
      assert item == filled[i] && filled[..i + 1] == filled[..i] + [item];
      TallyGrows(filled[..i], item);
      if !ItemOk(item, k) {
        ok := false;
        return;
      }
      content := content[i := item];
      t := Add(t, item);
    }
    assert filled[..|s|] == filled && content == filled;
  }

  /** Normalisation as a program. */
  method Normalize(r: Request, c: Capability, k: Checks) returns (out: Outcome)
    ensures out == Normal(r, c, k)
  {
    hide ItemOk, CountKind, CountFirst, Prompt, Roles, Sources, Accepts, HasMode;
    if !k.modelId(r.model) || Duration(r) <= 0 || |r.content| < 1 || |r.content| > 13
       || |r.resolution| > 32 || |r.ratio| > 32 || (r.callback.Some? && k.blank(r.callback.value)) {
      return Invalid;
    }
    var mediaCount := TotalMedia(r.content);
    var ok, content, t := Scan(r.content, mediaCount, HasMode(c, "i2va"), k);
    if !ok { return Invalid; }
    CountFilled(r.content, mediaCount, HasMode(c, "i2va"), "text");
    if t.texts != 1 || t.images > 9 || t.videos > 3 || t.audios > 3 || mediaCount > 12 { return Invalid; }
    var scenario := "t2va";
    if t.first > 0 {
      if t.first != 1 || mediaCount != 1 { return Invalid; }
      scenario := "i2va";
    } else if mediaCount > 0 {
      scenario := "r2va";
    }
    var request := r.(duration := Duration(r), content := content);
    var needs := Collect(request, scenario);
    if !Accepts(c, needs) { return ModelInput; }
    return Accepted(Normalized(request, scenario, t.prompt, t.images, needs));
  }

  /** The requirements, gathered in one pass. */
  method Collect(r: Request, scenario: string) returns (needs: Requirements)
    ensures needs == Requirements(scenario, r.duration, r.resolution, Roles(r.content), Sources(r.content),
                                  CountMedia(r.content))
  {
    var roles, sources, count := [], [], 0;
    for i := 0 to |r.content|
      invariant roles == Roles(r.content[..i]) && sources == Sources(r.content[..i])
                && count == CountMedia(r.content[..i])
    {
      var item := r.content[i];
      assert r.content[..i + 1][..i] == r.content[..i];
      if item.kind == "text" { continue; }
      count := count + 1;
      roles := roles + [item.role];
      var media := Media(item);
      if media.Some? { sources := sources + [Scheme(media.value)]; }
    }
    assert r.content[..|r.content|] == r.content;
    needs := Requirements(scenario, r.duration, r.resolution, roles, sources, count);
  }

  /** Filling in roles changes no kind. */
  lemma {:induction false} CountFilled(s: seq<Content>, mediaCount: nat, i2va: bool, kind: string)
    ensures CountKind(Filled(s, mediaCount, i2va), kind) == CountKind(s, kind)
  {
    if s != [] {
      var t := s[..|s| - 1];
      assert Filled(s, mediaCount, i2va)[..|s| - 1] == Filled(t, mediaCount, i2va);
      CountFilled(t, mediaCount, i2va, kind);
    }
  }

  /* ---------- Replay ---------- */

  /** The capability replay makes up from the requirements frozen with the task. */
  function Synthetic(q: Requirements): Capability {
    Capability([Mode(q.scenario, [q.duration], q.roles)], [], [], 12)
  }

  /** A digest is collision free; for tk2sd it leaves out resolution, ratio and watermark. */
  datatype Digest = Digest(model: string, content: seq<Content>, duration: int, callback: Option<string>)

  function DigestOf(r: Request): Digest {
    Digest(r.model, r.content, r.duration, r.callback)
  }

  lemma {:induction false} FirstPoints(s: seq<Content>)
    ensures CountFirst(s) > 0 ==> exists i :: 0 <= i < |s| && s[i].kind == "image_url" && s[i].role == "first_frame"
    ensures (forall i | 0 <= i < |s| :: !(s[i].kind == "image_url" && s[i].role == "first_frame")) ==>
            CountFirst(s) == 0
  {
    if s != [] {
      FirstPoints(s[..|s| - 1]);
    }
  }

  lemma {:induction false} FirstCounts(s: seq<Content>, i: nat)
    requires i < |s| && s[i].kind == "image_url" && s[i].role == "first_frame"
    ensures CountFirst(s) > 0
  {
    if i < |s| - 1 {
      FirstCounts(s[..|s| - 1], i);
    }
  }

  lemma {:induction false} OnlyOneMedia(s: seq<Content>, i: nat, j: nat)
    requires i < j < |s| && s[i].kind != "text" && s[j].kind != "text"
    ensures CountMedia(s) >= 2
  {
    if j < |s| - 1 {
      OnlyOneMedia(s[..|s| - 1], i, j);
    } else {
      SomeMedia(s[..|s| - 1], i);
    }
  }

  lemma {:induction false} SomeMedia(s: seq<Content>, i: nat)
    requires i < |s| && s[i].kind != "text"
    ensures CountMedia(s) >= 1
  {
    if i < |s| - 1 {
      SomeMedia(s[..|s| - 1], i);
    }
  }

  /** Whether image-to-video is offered only matters for a request that becomes image-to-video. */
  lemma FillingAgrees(s: seq<Content>, i2va: bool)
    ensures var m := CountMedia(s); Filled(s, m, Scenario(Filled(s, m, i2va)) == "i2va") == Filled(s, m, i2va)
  {
    var m := CountMedia(s);
    var t := Filled(s, m, i2va);
    forall i | 0 <= i < |s| ensures Filled(s, m, Scenario(t) == "i2va")[i] == t[i] {
      if s[i].kind == "image_url" && s[i].role == "" && m == 1 {
        if i2va {
          FirstCounts(t, i);
        } else if CountFirst(t) > 0 {
          FirstPoints(t);
          var j :| 0 <= j < |t| && t[j].kind == "image_url" && t[j].role == "first_frame";
          if i < j { OnlyOneMedia(s, i, j); } else if j < i { OnlyOneMedia(s, j, i); }
          assert t[i].role[0] == 'r';
        }
      }
    }
  }

  /**
   Send the same request again, or any request that once normalised to the same digest under
   whatever capability its node had then: replay accepts it and lands on the identical request.
   */
  lemma ReplayAgrees(first: Request, c: Capability, again: Request, c': Capability, k: Checks)
    requires Normal(first, c, k).Accepted? && Normal(again, c', k).Accepted?
    requires DigestOf(Normal(first, c, k).n.request) == DigestOf(Normal(again, c', k).n.request)
    ensures var frozen := Normal(first, c, k).n.requirements;
            var replay := Normal(again, Synthetic(frozen), k);
            && replay == Normal(again, c', k)
            && DigestOf(replay.n.request) == DigestOf(Normal(first, c, k).n.request)
  {
    hide CountKind, CountFirst, Prompt, ItemOk, Filled;
    var n, n' := Normal(first, c, k).n, Normal(again, c', k).n;
    var synthetic := Synthetic(n.requirements);
    FillingAgrees(again.content, HasMode(c', "i2va"));
    assert HasMode(synthetic, "i2va") <==> n.scenario == "i2va" by {
      assert synthetic.modes[0].scenario == n.scenario;
    }
    assert Prepared(again, synthetic) == Prepared(again, c');
    assert Accepts(synthetic, n'.requirements) by {
      assert Supports(synthetic, n'.scenario, n'.request.duration) by { assert synthetic.modes[0] in synthetic.modes; }
    }
  }

  /** In particular the very same request replays to itself, however the catalogue has changed since. */
  lemma ReplaySucceeds(r: Request, c: Capability, k: Checks)
    requires Normal(r, c, k).Accepted?
    ensures Normal(r, Synthetic(Normal(r, c, k).n.requirements), k) == Normal(r, c, k)
  {
    ReplayAgrees(r, c, r, c, k);
  }

  /** Conversely a replay accepted with the stored digest is the stored request, but for what the digest leaves out. */
  lemma ReplayIsFaithful(first: Request, c: Capability, again: Request, k: Checks)
    requires Normal(first, c, k).Accepted?
    requires Normal(again, Synthetic(Normal(first, c, k).n.requirements), k).Accepted?
    requires var replay := Normal(again, Synthetic(Normal(first, c, k).n.requirements), k).n;
             DigestOf(replay.request) == DigestOf(Normal(first, c, k).n.request)
    ensures var n := Normal(first, c, k).n;
            var replay := Normal(again, Synthetic(n.requirements), k).n;
            && replay == n.(request := replay.request, requirements := n.requirements.(resolution := again.resolution))
            && replay.request == n.request.(resolution := again.resolution, ratio := again.ratio,
                                            watermark := again.watermark,
                                            durationPresent := again.durationPresent)
  {
  }

  /* ---------- The materialiser's structural checks ---------- */

  predicate ValidRole(kind: string, role: string) {
    match kind
    case "image_url" => role == "first_frame" || role == "reference_image"
    case "video_url" => role == "reference_video"
    case "audio_url" => role == "reference_audio"
    case _ => false
  }

  function Refs(x: Content): nat {
    (if x.image.Some? then 1 else 0) + (if x.video.Some? then 1 else 0) + (if x.audio.Some? then 1 else 0)
  }

  predicate ElementOk(x: Content, k: Checks) {
    if x.kind == "text" then TextOk(x, k)
    else Refs(x) == 1 && Media(x).Some? && x.text == "" && ValidRole(x.kind, x.role)
  }

  function CountRole(s: seq<Content>): nat {
    if s == [] then 0 else
    CountRole(s[..|s| - 1]) + if s[|s| - 1].kind != "text" && s[|s| - 1].role == "first_frame" then 1 else 0
  }

  /** Everything Prepare checks about a stored request before it looks at any medium. */
  predicate WellFormed(r: Request, model: string, k: Checks) {
    var s := r.content;
    var media := CountKind(s, "image_url") + CountKind(s, "video_url") + CountKind(s, "audio_url");
    && r.model == model && k.modelId(r.model) && 4 <= r.duration <= 15 && 1 <= |s| <= 13
    && (forall x | x in s :: ElementOk(x, k))
    && CountKind(s, "text") == 1 && (CountRole(s) > 0 ==> CountRole(s) == 1 && media == 1)
    && CountKind(s, "image_url") <= 9 && CountKind(s, "video_url") <= 3 && CountKind(s, "audio_url") <= 3 && media <= 12
  }

  function Count(counts: map<string, nat>, kind: string): nat {
    if kind in counts then counts[kind] else 0
  }

  lemma CountsStart()
    ensures CountRole([]) == 0 && forall kind :: CountKind([], kind) == 0
  {
  }

  lemma CountsGrow(s: seq<Content>, x: Content)
    ensures CountRole(s + [x]) == CountRole(s) + (if x.kind != "text" && x.role == "first_frame" then 1 else 0)
    ensures forall kind :: CountKind(s + [x], kind) == CountKind(s, kind) + if x.kind == kind then 1 else 0
  {
    assert (s + [x])[..|s|] == s;
  }

  /** The checks as the program does them, with a map from kind to count. */
  method Check(r: Request, model: string, k: Checks) returns (ok: bool)
    ensures ok <==> WellFormed(r, model, k)
  {
    hide ElementOk, CountKind, CountRole;
    CountsStart();
    if r.model != model || !k.modelId(r.model) || r.duration < 4 || r.duration > 15
       || |r.content| < 1 || |r.content| > 13 {
      return false;
    }
    var counts: map<string, nat> := map[];
    var firstFrames := 0;
    for i := 0 to |r.content|
      invariant forall kind :: Count(counts, kind) == CountKind(r.content[..i], kind)
      invariant firstFrames == CountRole(r.content[..i])
      invariant forall x | x in r.content[..i] :: ElementOk(x, k)
    {
      var item := r.content[i];
      assert r.content[..i + 1] == r.content[..i] + [item];
      CountsGrow(r.content[..i], item);
      counts := counts[item.kind := Count(counts, item.kind) + 1];
      if !ElementOk(item, k) { return false; }
      if item.kind != "text" && item.role == "first_frame" { firstFrames := firstFrames + 1; }
    }
    assert r.content[..|r.content|] == r.content;
    var images, videos, audios := Count(counts, "image_url"), Count(counts, "video_url"), Count(counts, "audio_url");
    var mediaCount := images + videos + audios;
    ok := !(Count(counts, "text") != 1 || (firstFrames > 0 && (firstFrames != 1 || mediaCount != 1))
            || images > 9 || videos > 3 || audios > 3 || mediaCount > 12);
  }

  /** On elements the normaliser passes, both ways of counting agree. */
  lemma {:induction false} CountsAgree(s: seq<Content>, k: Checks)
    requires forall x | x in s :: ItemOk(x, k)
    ensures CountMedia(s) == CountKind(s, "image_url") + CountKind(s, "video_url") + CountKind(s, "audio_url")
    ensures CountRole(s) == CountFirst(s)
  {
    if s != [] {
      assert s[|s| - 1] in s && ItemOk(s[|s| - 1], k);
      CountsAgree(s[..|s| - 1], k);
    }
  }

  /** A request that was accepted is well formed for execution exactly when its duration is in range. */
  lemma AcceptedIsWellFormed(r: Request, c: Capability, k: Checks)
    requires Normal(r, c, k).Accepted?
    ensures var n := Normal(r, c, k).n;
            WellFormed(n.request, r.model, k) <==> 4 <= n.request.duration <= 15
  {
    hide CountKind, CountFirst, CountRole, Filled;
    var n := Normal(r, c, k).n;
    CountsAgree(n.request.content, k);
    forall x | x in n.request.content ensures ElementOk(x, k) {
      assert ItemOk(x, k);
    }
  }

  /** Catalogue discovery admits durations from 4 to 15 only, so execution never finds a malformed task. */
  lemma DiscoveredDurationsSuffice(r: Request, c: Capability, k: Checks)
    requires Normal(r, c, k).Accepted?
    requires forall m, d | m in c.modes && d in m.durations :: 4 <= d <= 15
    ensures WellFormed(Normal(r, c, k).n.request, r.model, k)
  {
    hide WellFormed, ItemOk, CountsOk;
    AcceptedIsWellFormed(r, c, k);
  }
}
