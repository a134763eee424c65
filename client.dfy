/**
 * The browser's handling of the `create` answer (static/app.js:45-99): the
 * result area gets one box per generated image, labelled with the style
 * name read back out of the image's path, or a failure note and an error
 * text.
 */
module Client {
  import opened Text
  import opened Naming
  import opened CreateHandler

  /** `qrPath.split('/').pop()` (static/app.js:75). */
  function FileNameOf(qrPath: string): (name: string)
    ensures '/' !in name
    ensures |name| <= |qrPath| && name == qrPath[|qrPath| - |name|..]
    ensures |name| == |qrPath| || qrPath[|qrPath| - |name| - 1] == '/'
  {
    AfterLast(qrPath, '/')
  }

  /** `filename.split('_')[0]` (static/app.js:76): never contains `_` or `/`. */
  function StyleNameOf(qrPath: string): (style: string)
    ensures '_' !in style && '/' !in style
    ensures |style| <= |FileNameOf(qrPath)| && style == FileNameOf(qrPath)[..|style|]
    ensures |style| == |FileNameOf(qrPath)| || FileNameOf(qrPath)[|style|] == '_'
  {
    var name := FileNameOf(qrPath);
    var style := BeforeFirst(name, '_');
    assert forall i :: 0 <= i < |style| ==> style[i] == name[i];
    style
  }

  /**
   * The browser recovers the style from any path that ends in a file the
   * server named (app.py:173-175), provided the style has neither `_` nor
   * `/`; in particular from the `/static/...` URL the server reports.
   */
  lemma StyleNameRoundTrip(prefix: string, style: string, secs: nat, u: Uuid)
    requires '_' !in style && '/' !in style
    ensures StyleNameOf(prefix + RelativeQrPath(style, secs, u)) == style
    ensures StyleNameOf(StaticUrl(RelativeQrPath(style, secs, u))) == style
  {
    var name := QrFileName(style, secs, u);
    var path := RelativeQrPath(style, secs, u);
    assert path == "qrcodes/" + name by {
      assert style != [] ==> style[0] in style;
    }
    assert '/' !in name;
    var tail := name[|style| + 1..];
    assert name == style + ['_'] + tail;
    BeforeFirstOfJoin(style, '_', tail);
    forall p | p == prefix || p == "/static/"
      ensures StyleNameOf(p + path) == style
    {
      assert p + path == (p + "qrcodes") + ['/'] + name;
      AfterLastOfJoin(p + "qrcodes", '/', name);
    }
  }

  /** A child of the result area. */
  datatype Node =
    | Note(text: string)
    | QrBox(imageSrc: string, caption: string, href: string, download: string)

  const LoadingNote := "Generating... please wait. This may take a few seconds."
  const FailureNote := "Generation failed. Check the error message above."
  const UnknownError := "An unknown error occurred."
  const OfflineNote := "Could not connect to the server."
  const OfflineError := "Failed to connect to the server. Please check your connection and try again."

  /** The box for one generated image (static/app.js:71-82). */
  function BoxFor(qrPath: string): (box: Node)
    ensures box.QrBox? && box.imageSrc == qrPath && box.href == qrPath
  {
    var style := StyleNameOf(qrPath);
    QrBox(qrPath, style + " Style", qrPath, "qr_" + style + ".png")
  }

  /** For an image the server generated, the caption and the download name carry the requested style. */
  lemma BoxForGenerated(style: string, secs: nat, u: Uuid)
    requires '_' !in style && '/' !in style
    ensures var box := BoxFor(StaticUrl(RelativeQrPath(style, secs, u)));
      box.caption == style + " Style" && box.download == "qr_" + style + ".png"
  {
    StyleNameRoundTrip([], style, secs, u);
  }

  /** `result.message || "An unknown error occurred."` */
  function ErrorTextFor(message: string): (text: string)
    ensures text != ""
    ensures message != "" ==> text == message
  {
    if message == "" then UnknownError else message
  }

  /** The result area, the error line and whether the error line is shown. */
  class ResultView {
    var children: seq<Node>
    var errorText: string
    var errorVisible: bool

    constructor ()
      ensures children == [] && errorText == "" && !errorVisible
    {
      children := [];
      errorText := "";
      errorVisible := false;
    }

    /** static/app.js:49-51: the loading note replaces the area and the error line is cleared and hidden. */
    method ShowLoading()
      modifies this
      ensures children == [Note(LoadingNote)] && errorText == "" && !errorVisible
    {
      children := [Note(LoadingNote)];
      errorText := "";
      errorVisible := false;
    }

    /**
     * static/app.js:68-94: on success the area holds exactly one box per
     * returned path, in order, and the error line is left alone; on
     * failure the area holds the failure note and the error line shows the
     * server's message, or a fixed text when it is empty.
     */
    method ShowResult(response: CreateResponse)
      modifies this
      ensures response.CreateSucceeded? ==>
        |children| == |response.qrPaths| &&
        (forall i :: 0 <= i < |children| ==> children[i] == BoxFor(response.qrPaths[i])) &&
        errorText == old(errorText) && errorVisible == old(errorVisible)
      ensures response.CreateFailed? ==>
        children == [Note(FailureNote)] && errorText == ErrorTextFor(response.message) && errorVisible
    {
      match response
      case CreateSucceeded(qrPaths) =>
        children := [];
        for i := 0 to |qrPaths|
          invariant |children| == i
          invariant forall k :: 0 <= k < i ==> children[k] == BoxFor(qrPaths[k])
          invariant errorText == old(errorText) && errorVisible == old(errorVisible)
        {
          children := children + [BoxFor(qrPaths[i])];
        }
      case CreateFailed(message) =>
        children := [Note(FailureNote)];
        errorText := ErrorTextFor(message);
        errorVisible := true;
    }

    /** static/app.js:95-99: the request itself failed. */
    method ShowConnectionError()
      modifies this
      ensures children == [Note(OfflineNote)] && errorText == OfflineError && errorVisible
    {
      children := [Note(OfflineNote)];
      errorText := OfflineError;
      errorVisible := true;
    }
  }
}
