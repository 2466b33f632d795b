/** Which tk2sd requests are accepted, and what becomes of them, without going through the normaliser's loops. */
module Acceptance {
  import opened Domain
  import opened ModelRouting
  import opened Normalizer

  /* ---------- What a capability accepts ---------- */

  predicate ModeFits(m: Mode, r: Requirements) {
    m.scenario == r.scenario && r.duration in m.durations
  }

  /** The first mode that fits, if any. */
  ghost predicate Decides(modes: seq<Mode>, i: int, r: Requirements) {
    0 <= i < |modes| && ModeFits(modes[i], r) && forall j | 0 <= j < i :: !ModeFits(modes[j], r)
  }

  lemma {:induction false} RolesFitExactly(modes: seq<Mode>, r: Requirements)
    ensures RolesFit(modes, r) <==>
              exists i :: && Decides(modes, i, r)
                          && (modes[i].roles == [] || forall role | role in r.roles :: role in modes[i].roles)
  {
    if modes != [] {
      if ModeFits(modes[0], r) {
        assert Decides(modes, 0, r);
      } else {
        RolesFitExactly(modes[1..], r);
        assert forall i :: 1 <= i < |modes| ==> modes[i] == modes[1..][i - 1];
        assert forall i :: Decides(modes, i, r) ==> Decides(modes[1..], i - 1, r);
        assert forall i :: Decides(modes[1..], i, r) ==> Decides(modes, i + 1, r) && modes[i + 1] == modes[1..][i];
      }
    }
  }

  /** A list that is empty names everything. */
  predicate Allows(list: seq<string>, x: string) {
    list == [] || x in list
  }

  /**
   A task is accepted exactly if some mode fits it, the first that does allows its roles, and sources,
   resolution and number of media are allowed too; a limit of zero or less is none.
   */
  lemma AcceptsExactly(c: Capability, r: Requirements)
    ensures Accepts(c, r) <==>
              && (exists i :: Decides(c.modes, i, r) && forall role | role in r.roles :: Allows(c.modes[i].roles, role))
              && Allows(c.resolutions, r.resolution)
              && (forall source | source in r.inputSources :: Allows(c.inputSources, source))
              && (c.maxMedia <= 0 || r.mediaCount <= c.maxMedia)
  {
    RolesFitExactly(c.modes, r);
    if i :| Decides(c.modes, i, r) {
      assert c.modes[i] in c.modes;
    }
  }

  /* ---------- What the normaliser answers ---------- */

  /** The places of the elements of a kind. */
  function Places(s: seq<Content>, kind: string): set<int> {
    set i | 0 <= i < |s| && s[i].kind == kind
  }

  lemma {:induction false} CountIsSize(s: seq<Content>, kind: string)
    ensures CountKind(s, kind) == |Places(s, kind)|
  {
    if s == [] {
      assert Places(s, kind) == {};
    } else {
      var n := |s| - 1;
      CountIsSize(s[..n], kind);
      assert Places(s, kind) == Places(s[..n], kind) + if s[n].kind == kind then {n} else {};
    }
  }

  /** The fields around the content. */
  predicate HeaderFits(r: Request, k: Checks) {
    && (r.duration > 0 || (r.duration == 0 && !r.durationPresent))
    && |r.resolution| <= 32 && |r.ratio| <= 32
    && (r.callback == None || !k.blank(r.callback.value))
  }

  /** A media element that any node may fetch. */
  predicate Fetchable(x: Content, k: Checks) {
    Media(x).Some? ==> k.source(x.kind, Media(x).value) && !ForeignReference(Media(x).value)
  }

  /**
   Acceptable in shape: with its roles filled in, and were its duration in range, the request would
   pass the checks made before execution, and every medium can be fetched.
   */
  predicate Shapely(r: Request, c: Capability, k: Checks) {
    && HeaderFits(r, k)
    && WellFormed(Prepared(r, c).(duration := 5), r.model, k)
    && forall x | x in Prepared(r, c).content :: Fetchable(x, k)
  }

  lemma ElementsAgree(x: Content, k: Checks)
    ensures ItemOk(x, k) <==> ElementOk(x, k) && Fetchable(x, k)
  {
  }

  lemma {:induction false} CountsAgreeToo(s: seq<Content>, k: Checks)
    requires forall x | x in s :: ElementOk(x, k)
    ensures CountMedia(s) == CountKind(s, "image_url") + CountKind(s, "video_url") + CountKind(s, "audio_url")
    ensures CountRole(s) == CountFirst(s)
  {
    if s != [] {
      assert s[|s| - 1] in s && ElementOk(s[|s| - 1], k);
      CountsAgreeToo(s[..|s| - 1], k);
    }
  }

  /** The two validators refuse the same elements. */
  lemma ItemsAgree(s: seq<Content>, k: Checks)
    ensures (forall x | x in s :: ItemOk(x, k)) <==> (forall x | x in s :: ElementOk(x, k) && Fetchable(x, k))
  {
    hide ItemOk, ElementOk, Fetchable;
    forall x | x in s ensures ItemOk(x, k) <==> ElementOk(x, k) && Fetchable(x, k) {
      ElementsAgree(x, k);
    }
  }

  /** The normaliser refuses a shape exactly if the checks before execution would. */
  lemma AnswersByShape(r: Request, c: Capability, k: Checks)
    ensures Normal(r, c, k).Invalid? <==> !Shapely(r, c, k)
    ensures Normal(r, c, k).ModelInput? <==> Shapely(r, c, k) && !Accepts(c, Needs(Prepared(r, c)))
    ensures Normal(r, c, k).Accepted? <==> Shapely(r, c, k) && Accepts(c, Needs(Prepared(r, c)))
  {
    hide CountKind, CountFirst, CountRole, Filled, ItemOk, ElementOk, Fetchable, Accepts;
    var p := Prepared(r, c);
    ItemsAgree(p.content, k);
    if forall x | x in p.content :: ElementOk(x, k) {
      CountsAgreeToo(p.content, k);
    }
  }

  /* ---------- What an accepted request says ---------- */

  /** With one text element, the prompt is its text. */
  lemma {:induction false} PromptIsTheText(s: seq<Content>)
    requires CountKind(s, "text") == 1
    ensures exists i :: 0 <= i < |s| && s[i].kind == "text" && Prompt(s) == s[i].text
  {
    var n := |s| - 1;
    if s[n].kind != "text" {
      PromptIsTheText(s[..n]);
      var i :| 0 <= i < n && s[..n][i].kind == "text" && Prompt(s[..n]) == s[..n][i].text;
      assert s[i].kind == "text";
    }
  }

  /** The roles are those of the media. */
  lemma {:induction false} RolesAreThere(s: seq<Content>, role: string)
    ensures role in Roles(s) <==> exists x | x in s :: x.kind != "text" && x.role == role
    ensures |Roles(s)| == CountMedia(s)
  {
    if s != [] {
      RolesAreThere(s[..|s| - 1], role);
      assert s == s[..|s| - 1] + [s[|s| - 1]];
    }
  }

  /** The sources are the schemes of their addresses. */
  lemma {:induction false} SourcesAreThere(s: seq<Content>, source: string)
    ensures source in Sources(s) <==>
              exists x | x in s :: x.kind != "text" && Media(x).Some? && Scheme(Media(x).value) == source
  {
    if s != [] {
      SourcesAreThere(s[..|s| - 1], source);
      assert s == s[..|s| - 1] + [s[|s| - 1]];
    }
  }

  lemma {:induction false} SchemeEndsAtColon(url: string)
    ensures Scheme(url) <= url && ':' !in Scheme(url)
    ensures |Scheme(url)| < |url| ==> url[|Scheme(url)|] == ':'
  {
    if url != "" && url[0] != ':' {
      SchemeEndsAtColon(url[1..]);
    }
  }

  lemma {:induction false} SchemeIs(url: string, scheme: string)
    requires ':' !in scheme && scheme + ":" <= url
    ensures Scheme(url) == scheme
  {
    assert url[|scheme|] == (scheme + ":")[|scheme|];
    if scheme != "" {
      assert url[0] == (scheme + ":")[0] == scheme[0];
      assert scheme[1..] + ":" == (scheme + ":")[1..] <= url[1..];
      SchemeIs(url[1..], scheme[1..]);
      assert scheme == [scheme[0]] + scheme[1..];
    }
  }

  /** References that only some node can resolve are recognised by their scheme. */
  lemma ForeignMeans(url: string)
    ensures ForeignReference(url) <==> ':' in url && Scheme(url) in {"mm_file", "asset", "proxy-input"}
  {
    hide Scheme;
    SchemeEndsAtColon(url);
    if "mm_file" + ":" <= url { SchemeIs(url, "mm_file"); }
    if "asset" + ":" <= url { SchemeIs(url, "asset"); }
    if "proxy-input" + ":" <= url { SchemeIs(url, "proxy-input"); }
    assert "mm_file" + ":" == "mm_file:" && "asset" + ":" == "asset:" && "proxy-input" + ":" == "proxy-input:";
    if ':' in url && Scheme(url) in {"mm_file", "asset", "proxy-input"} {
      assert |Scheme(url)| < |url|;
      assert Scheme(url) + ":" <= url;
    }
    if ForeignReference(url) {
      assert url[|Scheme(url)|] == ':';
    }
  }

  /** The role of a medium that names none: the first frame if it is a single image and that can be done. */
  predicate GetsRole(x: Content, y: Content, alone: bool, i2va: bool) {
    if x.kind == "text" || x.role != "" then y == x
    else
      && y == x.(role := y.role)
      && (y.role == "first_frame" <==> x.kind == "image_url" && alone && i2va)
      && (y.role == "reference_image" <==> x.kind == "image_url" && !(alone && i2va))
      && (y.role == "reference_video" <==> x.kind == "video_url")
      && (y.role == "reference_audio" <==> x.kind == "audio_url")
  }

  lemma RoleIsGot(x: Content, media: nat, i2va: bool, k: Checks)
    requires ItemOk(DefaultRole(x, media, i2va), k)
    ensures GetsRole(x, DefaultRole(x, media, i2va), media == 1, i2va)
  {
    var y := DefaultRole(x, media, i2va);
    assert "first_frame"[0] != "reference_image"[0];
    if x.kind != "text" && x.role == "" {
      assert y.kind == x.kind;
    }
  }

  /** What an accepted request looks like beside the one that was sent. */
  predicate Means(r: Request, n: Normalized, i2va: bool) {
    var s, t := r.content, n.request.content;
    && n.request == r.(content := t, duration := if r.duration == 0 then 5 else r.duration)
    && |t| == |s| && (forall i | 0 <= i < |s| :: GetsRole(s[i], t[i], |s| == 2, i2va))
    && |Places(t, "text")| == 1 && n.images == |Places(t, "image_url")|
    && (exists i :: 0 <= i < |t| && t[i].kind == "text" && n.prompt == t[i].text)
    && n.scenario == n.requirements.scenario
    && (n.scenario == "t2va" <==> |t| == 1)
    && (n.scenario == "i2va" <==> |t| == 2 && exists x | x in t :: x.kind == "image_url" && x.role == "first_frame")
    && (n.scenario == "t2va" || n.scenario == "i2va" || n.scenario == "r2va")
    && n.requirements.duration == n.request.duration && n.requirements.resolution == r.resolution
    && n.requirements.mediaCount == |t| - 1
  }

  lemma AcceptedMeans(r: Request, c: Capability, k: Checks)
    requires Normal(r, c, k).Accepted?
    ensures Means(r, Normal(r, c, k).n, HasMode(c, "i2va"))
  {
    hide CountKind, CountFirst, ItemOk, Roles, Sources, Prompt, GetsRole, DefaultRole, Accepts, Places;
    var n := Normal(r, c, k).n;
    var t := n.request.content;
    CountIsSize(t, "text");
    CountIsSize(t, "image_url");
    PromptIsTheText(t);
    CountFilled(r.content, CountMedia(r.content), HasMode(c, "i2va"), "text");
    forall i | 0 <= i < |t| ensures GetsRole(r.content[i], t[i], |t| == 2, HasMode(c, "i2va")) {
      assert t[i] in t;
      RoleIsGot(r.content[i], CountMedia(r.content), HasMode(c, "i2va"), k);
    }
    FirstPoints(t);
    if x :| x in t && x.kind == "image_url" && x.role == "first_frame" {
      var i :| 0 <= i < |t| && t[i] == x;
      FirstCounts(t, i);
    }
    ScenariosDiffer();
  }

  lemma ScenariosDiffer()
    ensures "t2va" != "i2va" && "t2va" != "r2va" && "i2va" != "r2va"
  {
    assert "t2va"[0] != "i2va"[0] && "t2va"[0] != "r2va"[0] && "i2va"[0] != "r2va"[0];
  }

  /** And its needs name the roles and the sources of its media, no more and no less. */
  lemma NeedsMean(r: Request, c: Capability, k: Checks, name: string)
    requires Normal(r, c, k).Accepted?
    ensures var n := Normal(r, c, k).n;
            && (name in n.requirements.roles <==>
                  exists x | x in n.request.content :: x.kind != "text" && x.role == name)
            && (name in n.requirements.inputSources <==>
                  exists x | x in n.request.content ::
                    x.kind != "text" && Media(x).Some? && Scheme(Media(x).value) == name)
  {
    hide CountsOk, ItemOk, Accepts, Roles, Sources;
    RolesAreThere(Normal(r, c, k).n.request.content, name);
    SourcesAreThere(Normal(r, c, k).n.request.content, name);
  }

  /* ---------- Ordinary requests ---------- */

  predicate PlainText(x: Content, k: Checks) {
    x == Content("text", x.text, None, None, None, "") && !k.blank(x.text) && |x.text| <= 14000
  }

  /** A medium in its own field and nothing else: no role, its reference role or, if alone, the first frame. */
  predicate PlainMedium(x: Content, url: string, alone: bool) {
    || (x == Content("image_url", "", Some(url), None, None, x.role)
        && (x.role == "" || x.role == "reference_image" || (x.role == "first_frame" && alone)))
    || (x == Content("video_url", "", None, Some(url), None, x.role) && (x.role == "" || x.role == "reference_video"))
    || (x == Content("audio_url", "", None, None, Some(url), x.role) && (x.role == "" || x.role == "reference_audio"))
  }

  ghost predicate Plain(x: Content, k: Checks, alone: bool) {
    || PlainText(x, k)
    || exists url :: PlainMedium(x, url, alone) && k.source(x.kind, url) && !ForeignReference(url)
  }

  /** One text and up to nine images, three videos and three audios, twelve in all. */
  ghost predicate Ordinary(r: Request, k: Checks) {
    var s := r.content;
    && k.modelId(r.model) && HeaderFits(r, k)
    && (forall x | x in s :: Plain(x, k, |s| == 2))
    && |Places(s, "text")| == 1 && |s| <= 13
    && |Places(s, "image_url")| <= 9 && |Places(s, "video_url")| <= 3 && |Places(s, "audio_url")| <= 3
  }

  lemma Vocabulary()
    ensures TrimUrl("image_url") == "image" && TrimUrl("video_url") == "video" && TrimUrl("audio_url") == "audio"
    ensures "reference_" + "image" == "reference_image" && "reference_" + "video" == "reference_video"
    ensures "reference_" + "audio" == "reference_audio"
    ensures "text" != "image_url" && "text" != "video_url" && "text" != "audio_url" && "image_url" != "video_url"
    ensures "image_url" != "audio_url" && "video_url" != "audio_url"
    ensures "first_frame" != "reference_image" && "first_frame" != "reference_video"
            && "first_frame" != "reference_audio"
  {
    assert "text"[0] != "image_url"[0] && "text"[0] != "video_url"[0] && "text"[0] != "audio_url"[0];
    assert "image_url"[0] != "video_url"[0] && "image_url"[0] != "audio_url"[0] && "video_url"[0] != "audio_url"[0];
    assert "first_frame"[0] != "reference_image"[0] == "reference_video"[0] == "reference_audio"[0];
  }

  lemma PlainPasses(x: Content, k: Checks, media: nat, i2va: bool)
    requires Plain(x, k, media == 1)
    ensures var y := DefaultRole(x, media, i2va);
            && ElementOk(y, k) && Fetchable(y, k) && y.kind == x.kind
            && (y.role == "first_frame" ==> media == 1)
  {
    hide TrimUrl, ForeignReference;
    Vocabulary();
  }

  lemma PassesPlain(x: Content, k: Checks, media: nat, i2va: bool)
    requires var y := DefaultRole(x, media, i2va); ElementOk(y, k) && Fetchable(y, k)
    requires x.role == "first_frame" && x.kind != "text" ==> media == 1
    ensures Plain(x, k, media == 1)
  {
    hide TrimUrl, ForeignReference;
    Vocabulary();
    if x.kind != "text" {
      assert PlainMedium(x, Media(x).value, media == 1);
    }
  }

  lemma {:induction false} FirstsAreMedia(s: seq<Content>)
    ensures CountRole(s) <= CountMedia(s)
    ensures CountRole(s) > 0 <==> exists x | x in s :: x.kind != "text" && x.role == "first_frame"
  {
    if s != [] {
      FirstsAreMedia(s[..|s| - 1]);
      assert s == s[..|s| - 1] + [s[|s| - 1]];
    }
  }

  /** Every ordinary request is acceptable in shape, whatever the capability. */
  lemma OrdinaryIsShapely(r: Request, c: Capability, k: Checks)
    requires Ordinary(r, k)
    ensures Shapely(r, c, k)
  {
    hide CountKind, CountRole, CountFirst, ElementOk, Fetchable, Plain, Places, DefaultRole, HasMode;
    var s, i2va := r.content, HasMode(c, "i2va");
    var t := Prepared(r, c).content;
    CountIsSize(s, "text");
    CountIsSize(s, "image_url");
    CountIsSize(s, "video_url");
    CountIsSize(s, "audio_url");
    CountFilled(s, CountMedia(s), i2va, "text");
    CountFilled(s, CountMedia(s), i2va, "image_url");
    CountFilled(s, CountMedia(s), i2va, "video_url");
    CountFilled(s, CountMedia(s), i2va, "audio_url");
    forall y | y in t ensures ElementOk(y, k) && Fetchable(y, k) && (y.role == "first_frame" ==> CountMedia(s) == 1) {
      var i :| 0 <= i < |t| && t[i] == y;
      assert s[i] in s;
      PlainPasses(s[i], k, CountMedia(s), i2va);
    }
    CountsAgreeToo(t, k);
    FirstsAreMedia(t);
  }

  /** And nothing else is. */
  lemma ShapelyIsOrdinary(r: Request, c: Capability, k: Checks)
    requires Shapely(r, c, k)
    ensures Ordinary(r, k)
  {
    hide CountKind, CountRole, CountFirst, ElementOk, Fetchable, Plain, Places, DefaultRole, HasMode;
    var s, i2va := r.content, HasMode(c, "i2va");
    var t := Prepared(r, c).content;
    CountIsSize(s, "text");
    CountIsSize(s, "image_url");
    CountIsSize(s, "video_url");
    CountIsSize(s, "audio_url");
    CountFilled(s, CountMedia(s), i2va, "text");
    CountFilled(s, CountMedia(s), i2va, "image_url");
    CountFilled(s, CountMedia(s), i2va, "video_url");
    CountFilled(s, CountMedia(s), i2va, "audio_url");
    CountsAgreeToo(t, k);
    FirstsAreMedia(t);
    forall x | x in s ensures Plain(x, k, |s| == 2) {
      var i :| 0 <= i < |s| && s[i] == x;
      assert t[i] in t;
      ExplicitStays(x, CountMedia(s), i2va);
      PassesPlain(x, k, CountMedia(s), i2va);
    }
  }

  lemma ExplicitStays(x: Content, media: nat, i2va: bool)
    ensures x.role != "" || x.kind == "text" ==> DefaultRole(x, media, i2va) == x
    ensures DefaultRole(x, media, i2va).kind == x.kind
  {
  }

  /**
   Every request gets exactly one of three answers, whatever the loops do: invalid unless it is an
   ordinary request; then refused by the model exactly if the capability does not accept its needs;
   otherwise accepted.
   */
  lemma AnswersExactly(r: Request, c: Capability, k: Checks)
    ensures Normal(r, c, k).Invalid? <==> !Ordinary(r, k)
    ensures Normal(r, c, k).ModelInput? <==> Ordinary(r, k) && !Accepts(c, Needs(Prepared(r, c)))
    ensures Normal(r, c, k).Accepted? <==> Ordinary(r, k) && Accepts(c, Needs(Prepared(r, c)))
  {
    hide Normal, Shapely, Ordinary, Accepts;
    AnswersByShape(r, c, k);
    if Ordinary(r, k) {
      OrdinaryIsShapely(r, c, k);
    } else if Shapely(r, c, k) {
      ShapelyIsOrdinary(r, c, k);
    }
  }
}
