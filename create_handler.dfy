/**
 * The POST branch of the `create` route (app.py:255-320): validation in a
 * fixed order, the label/url pairs kept for the landing page, the landing
 * URL the codes point to, and the loop that generates one image per
 * requested style, skipping the ones that fail.
 */
module CreateHandler {
  import opened Results
  import opened Text
  import opened Naming
  import opened StyledQr

  datatype Upload = Upload(filename: string)

  /** The form fields read at app.py:256-260; `None` is a field the form did not send. */
  datatype CreateRequest = CreateRequest(
    title: Option<string>,
    image: Option<Upload>,
    styles: seq<string>,
    labels: seq<string>,
    urls: seq<string>)

  /** The JSON answer: `{"success": false, "message": ...}` or `{"success": true, "qr_paths": [...]}`. */
  datatype CreateResponse = CreateFailed(message: string) | CreateSucceeded(qrPaths: seq<string>)

  const TitleRequired := "A title for your QR code is required."
  const LogoRequired := "A logo image is required."
  const StyleRequired := "Please select at least one QR code style."
  const NothingGenerated := "Could not generate any QR codes. Please check the server logs for detailed errors."

  function SaveFailedMessage(error: string): (m: string)
    ensures m != ""
  {
    "Could not save logo file. Error: " + error
  }

  // ---------------------------------------------------------------------------
  // Validation (app.py:263-270)
  // ---------------------------------------------------------------------------

  /** `not title` is false: the field was sent and is not empty. */
  predicate HasTitle(req: CreateRequest) { req.title.Some? && req.title.value != "" }

  /** `not image or not image.filename` is false. */
  predicate HasLogo(req: CreateRequest) { req.image.Some? && req.image.value.filename != "" }

  /** The message of the first check that fails, title before logo before styles; `None` when all pass. */
  function ValidationFailure(req: CreateRequest): (r: Option<string>)
    ensures r == None <==> HasTitle(req) && HasLogo(req) && req.styles != []
    ensures r == Some(TitleRequired) <==> !HasTitle(req)
    ensures r == Some(LogoRequired) <==> HasTitle(req) && !HasLogo(req)
    ensures r == Some(StyleRequired) <==> HasTitle(req) && HasLogo(req) && req.styles == []
  {
    if !HasTitle(req) then Some(TitleRequired)
    else if !HasLogo(req) then Some(LogoRequired)
    else if req.styles == [] then Some(StyleRequired)
    else None
  }

  // ---------------------------------------------------------------------------
  // Link pairs (app.py:273)
  // ---------------------------------------------------------------------------

  /** The field has a character other than whitespace. */
  predicate Filled(s: string) { exists i :: 0 <= i < |s| && !IsSpace(s[i]) }

  /**
   * `[(l, u) for l, u in zip(labels, urls) if l.strip() and u.strip()]`:
   * labels and urls paired by position up to the shorter list, keeping the
   * pairs whose two halves are both filled in.
   */
  function LinkPairs(labels: seq<string>, urls: seq<string>): (pairs: seq<(string, string)>)
    ensures |pairs| <= |labels| && |pairs| <= |urls|
    ensures forall k :: 0 <= k < |pairs| ==> Filled(pairs[k].0) && Filled(pairs[k].1)
  {
    if labels == [] || urls == [] then []
    else
      (if Filled(labels[0]) && Filled(urls[0]) then [(labels[0], urls[0])] else [])
      + LinkPairs(labels[1..], urls[1..])
  }

  /** `s.strip()` is truthy exactly when the field is filled. */
  lemma FilledIffStripped(s: string)
    ensures Filled(s) <==> Strip(s) != []
  {
    StripEmptyIffBlank(s);
  }

  /** The filter works pair by pair, so the kept pairs keep the order of the form. */
  lemma {:induction false} LinkPairsAppend(l1: seq<string>, u1: seq<string>, l2: seq<string>, u2: seq<string>)
    requires |l1| == |u1|
    ensures LinkPairs(l1 + l2, u1 + u2) == LinkPairs(l1, u1) + LinkPairs(l2, u2)
  {
    if l1 == [] {
      assert l1 + l2 == l2 && u1 + u2 == u2;
    } else {
      assert (l1 + l2)[0] == l1[0] && (u1 + u2)[0] == u1[0];
      assert (l1 + l2)[1..] == l1[1..] + l2;
      assert (u1 + u2)[1..] == u1[1..] + u2;
      LinkPairsAppend(l1[1..], u1[1..], l2, u2);
    }
  }

  /** Entries of the longer list that have no partner are dropped. */
  lemma {:induction false} LinkPairsTruncate(labels: seq<string>, urls: seq<string>)
    ensures var n := if |labels| <= |urls| then |labels| else |urls|;
      LinkPairs(labels, urls) == LinkPairs(labels[..n], urls[..n])
  {
    if labels != [] && urls != [] {
      LinkPairsTruncate(labels[1..], urls[1..]);
      var n := if |labels| <= |urls| then |labels| else |urls|;
      assert labels[..n][1..] == labels[1..][..n - 1];
      assert urls[..n][1..] == urls[1..][..n - 1];
    }
  }

  /** A pair is kept exactly when some position holds it and both halves are filled. */
  lemma {:induction false} LinkPairsMembership(labels: seq<string>, urls: seq<string>, l: string, u: string)
    ensures (l, u) in LinkPairs(labels, urls) <==>
      exists i :: 0 <= i < |labels| && i < |urls| && labels[i] == l && urls[i] == u && Filled(l) && Filled(u)
  {
    if labels != [] && urls != [] {
      LinkPairsMembership(labels[1..], urls[1..], l, u);
      if exists i :: 0 <= i < |labels| && i < |urls| && labels[i] == l && urls[i] == u && Filled(l) && Filled(u) {
        var i :| 0 <= i < |labels| && i < |urls| && labels[i] == l && urls[i] == u && Filled(l) && Filled(u);
        if i > 0 {
          assert labels[1..][i - 1] == l && urls[1..][i - 1] == u;
        }
      }
      if (l, u) in LinkPairs(labels[1..], urls[1..]) {
        var i :| 0 <= i < |labels[1..]| && i < |urls[1..]| && labels[1..][i] == l && urls[1..][i] == u && Filled(l) && Filled(u);
        assert labels[i + 1] == l && urls[i + 1] == u;
      }
    }
  }

  // ---------------------------------------------------------------------------
  // Landing URL (app.py:295-299)
  // ---------------------------------------------------------------------------

  /** `url_for('qr_landing', unique_id=id)` for an application mounted at the root. */
  function LandingRoute(uniqueId: string): string { "/qr/" + uniqueId }

  /** `p` is `host.rstrip('/')`: a prefix of `host` followed only by slashes, not itself ending in one. */
  predicate SlashTrimmed(p: string, host: string) {
    |p| <= |host| && p == host[..|p|] &&
    (forall i :: |p| <= i < |host| ==> host[i] == '/') &&
    (p == [] || p[|p| - 1] != '/')
  }

  /**
   * The URL the codes encode: the configured public host with its trailing
   * slashes removed, then the landing route; with no public host, the
   * external URL Flask builds from the request's own root.
   */
  function LandingUrl(publicHost: Option<string>, externalRoot: string, uniqueId: string): (url: string)
    ensures publicHost.Some? && publicHost.value != "" ==>
      exists p :: SlashTrimmed(p, publicHost.value) && url == p + LandingRoute(uniqueId)
    ensures !(publicHost.Some? && publicHost.value != "") ==> url == externalRoot + LandingRoute(uniqueId)
  {
    if publicHost.Some? && publicHost.value != "" then
      var p := TrimRight(publicHost.value, IsSlash);
      assert SlashTrimmed(p, publicHost.value);
      p + LandingRoute(uniqueId)
    else externalRoot + LandingRoute(uniqueId)
  }

  /** The trimmed host is unique, so the route is never preceded by a second slash. */
  lemma SlashTrimmedUnique(p: string, q: string, host: string)
    requires SlashTrimmed(p, host) && SlashTrimmed(q, host)
    ensures p == q
  {
  }

  // ---------------------------------------------------------------------------
  // The per-style loop (app.py:301-320)
  // ---------------------------------------------------------------------------

  /**
   * What each call of `create_styled_qr` in the loop returned or raised, in
   * request order; every call encodes the same `dataUrl`.
   */
  function Outcomes(styles: seq<string>, dataUrl: string, envs: seq<StyleEnv>): (outcomes: seq<Result<string, StyleError>>)
    requires |envs| == |styles|
    ensures |outcomes| == |styles|
    ensures forall i :: 0 <= i < |styles| ==> outcomes[i] == StyledQrOutcome(envs[i], dataUrl, styles[i])
  {
    seq(|styles|, i requires 0 <= i < |styles| => StyledQrOutcome(envs[i], dataUrl, styles[i]))
  }

  /** The `/static/...` URLs of the calls that returned a path, in the order of the calls. */
  function Reported(outcomes: seq<Result<string, StyleError>>): (urls: seq<string>)
    ensures |urls| <= |outcomes|
  {
    if outcomes == [] then []
    else
      var last := outcomes[|outcomes| - 1];
      Reported(outcomes[..|outcomes| - 1]) + if last.Ok? then [StaticUrl(last.value)] else []
  }

  /**
   * The URLs of a run of calls are those of its parts, one after the other:
   * a call that raised contributes nothing and does not affect the calls
   * after it.
   */
  lemma {:induction false} ReportedAppend(o1: seq<Result<string, StyleError>>, o2: seq<Result<string, StyleError>>)
    ensures Reported(o1 + o2) == Reported(o1) + Reported(o2)
  {
    if o2 == [] {
      assert o1 + o2 == o1;
    } else {
      var n := |o2| - 1;
      assert (o1 + o2)[..|o1| + n] == o1 + o2[..n];
      ReportedAppend(o1, o2[..n]);
    }
  }

  /** Nothing is reported exactly when every call raised. */
  lemma {:induction false} ReportedEmpty(outcomes: seq<Result<string, StyleError>>)
    ensures Reported(outcomes) == [] <==> forall i :: 0 <= i < |outcomes| ==> outcomes[i].Err?
  {
    if outcomes != [] {
      var n := |outcomes| - 1;
      ReportedEmpty(outcomes[..n]);
      assert forall i :: 0 <= i < n ==> outcomes[..n][i] == outcomes[i];
    }
  }

  /** Every returned path is reported, and every reported URL is that of a returned path. */
  lemma {:induction false} ReportedMembership(outcomes: seq<Result<string, StyleError>>, url: string)
    ensures url in Reported(outcomes) <==>
      exists i :: 0 <= i < |outcomes| && outcomes[i].Ok? && url == StaticUrl(outcomes[i].value)
  {
    if outcomes != [] {
      var n := |outcomes| - 1;
      ReportedMembership(outcomes[..n], url);
      assert forall i :: 0 <= i < n ==> outcomes[..n][i] == outcomes[i];
    }
  }

  /**
   * app.py:301-313: each style is tried in turn; a style that raises is
   * logged and skipped and the remaining styles are still attempted.
   */
  method GenerateStyles(styles: seq<string>, dataUrl: string, envs: seq<StyleEnv>) returns (qrPaths: seq<string>)
    requires |envs| == |styles|
    ensures qrPaths == Reported(Outcomes(styles, dataUrl, envs))
  {
    ghost var outcomes := Outcomes(styles, dataUrl, envs);
    qrPaths := [];
    for i := 0 to |styles|
      invariant qrPaths == Reported(outcomes[..i])
    {
      assert outcomes[..i + 1][..i] == outcomes[..i];
      match StyledQrOutcome(envs[i], dataUrl, styles[i])
      case Ok(path) =>
        qrPaths := qrPaths + [StaticUrl(path)];
      case Err(_) =>
    }
    assert outcomes[..|styles|] == outcomes;
  }

  // ---------------------------------------------------------------------------
  // The whole request
  // ---------------------------------------------------------------------------

  /** What the outside world does while `create` runs. */
  datatype CreateEnv = CreateEnv(
    logoSaveError: Option<string>, // str(e) when image.save raises
    publicHost: Option<string>,    // app.config['PUBLIC_HOST']
    externalRoot: string,          // the request's own scheme and host
    uniqueId: string)              // the default uuid4 text of the new record's unique_id

  /**
   * The record committed before the images are made (app.py:286-293): its
   * title, its kept link pairs and its `unique_id`. The logo path, the owner
   * and the `GeneratedFile` rows are not part of this model.
   */
  datatype QrRecord = QrRecord(title: string, links: seq<(string, string)>, uniqueId: string)

  /**
   * The POST branch of `create`. `styleEnvs[i]` is what the outside world
   * does during the call for `req.styles[i]`. Nothing is stored when a
   * check fails or the logo cannot be saved; otherwise the record holds
   * the title, the filled link pairs and the unique id, every style encodes
   * the landing URL built from that id (returned as `dataUrl`), and the
   * answer is a success exactly when at least one style was generated.
   */
  method HandleCreate(req: CreateRequest, env: CreateEnv, styleEnvs: seq<StyleEnv>)
    returns (response: CreateResponse, record: Option<QrRecord>, dataUrl: Option<string>)
    requires |styleEnvs| == |req.styles|
    ensures ValidationFailure(req).Some? ==>
      response == CreateFailed(ValidationFailure(req).value) && record == None && dataUrl == None
    ensures ValidationFailure(req).None? && env.logoSaveError.Some? ==>
      response == CreateFailed(SaveFailedMessage(env.logoSaveError.value)) && record == None && dataUrl == None
    ensures ValidationFailure(req).None? && env.logoSaveError.None? ==>
      record == Some(QrRecord(req.title.value, LinkPairs(req.labels, req.urls), env.uniqueId)) &&
      dataUrl == Some(LandingUrl(env.publicHost, env.externalRoot, env.uniqueId)) &&
      response == (if Reported(Outcomes(req.styles, dataUrl.value, styleEnvs)) == [] then CreateFailed(NothingGenerated)
                   else CreateSucceeded(Reported(Outcomes(req.styles, dataUrl.value, styleEnvs))))
    ensures response.CreateSucceeded? <==>
      ValidationFailure(req).None? && env.logoSaveError.None? &&
      exists i :: 0 <= i < |req.styles| &&
        Outcomes(req.styles, LandingUrl(env.publicHost, env.externalRoot, env.uniqueId), styleEnvs)[i].Ok?
    ensures response.CreateSucceeded? ==> response.qrPaths != []
    ensures response.CreateFailed? ==> response.message != ""
  {
    var failure := ValidationFailure(req);
    if failure.Some? {
      return CreateFailed(failure.value), None, None;
    }
    var links := LinkPairs(req.labels, req.urls);
    if env.logoSaveError.Some? {
      return CreateFailed(SaveFailedMessage(env.logoSaveError.value)), None, None;
    }
    record := Some(QrRecord(req.title.value, links, env.uniqueId));
    var landing := LandingUrl(env.publicHost, env.externalRoot, env.uniqueId);
    dataUrl := Some(landing);
    var qrPaths := GenerateStyles(req.styles, landing, styleEnvs);
    ReportedEmpty(Outcomes(req.styles, landing, styleEnvs));
    if qrPaths == [] {
      response := CreateFailed(NothingGenerated);
    } else {
      response := CreateSucceeded(qrPaths);
    }
  }
}
