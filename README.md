# Styled QR code generation: a Dafny model of the glue code

This project models the deterministic code that the Aesthetic-Qr-Code web
application writes around its image libraries:

- the dominant-colour palette with its black-on-white fallback, and the choice
  of fill and background colour from it;
- the name and relative path of every generated image, and the `/static/...`
  URL the browser receives;
- the dispatch between the `logo`, `gradient` and classic styles;
- the gradient layer, drawn one full-width row at a time;
- the centred logo square, pasted through a mask into a copy of the rendered
  code;
- the `create` request: validation order, the label/url pairs kept, the
  landing URL, and the per-style loop that skips failing styles;
- the browser's result area, which gets one box per returned path, labelled
  with the style name it parses back out of that path.

The QR encoder, ColorThief and PIL are foreign code. What they produce enters
the model as inputs: the rendered code, the resized logo and the disc mask as
`array2` rasters, and the ColorThief answer as a `PaletteSource`. The clock,
the UUID generator and the file system also enter as inputs. Each call of
`create_styled_qr` gets the landing URL it encodes and a `StyleEnv` record.
The record holds whether the logo file exists, what ColorThief returned, the
clock second, the UUID, which data fit a QR code, whether PIL can open the
logo, and whether the save succeeds.

Modules, one file each:

- `Results`: option and result types.
- `Text`: Python `strip`/`rstrip`, `str(int)` and `'%0Nx'` formatting, and
  JavaScript `split(...)[0]` and `split(...).pop()`.
- `Colours`: `#rrggbb` formatting and reading, the palette and the choice of
  colours.
- `Naming`: the file name, `posixpath.join`, the relative and full paths,
  and the static URL.
- `Compositor`: dispatch, the gradient and the logo.
- `StyledQr`: what `create_styled_qr` returns or raises.
- `CreateHandler`: the `create` POST branch.
- `Client`: `static/app.js`'s result handling.

Behaviour of the code that the model keeps as written:

- `create_styled_qr` indexes `colors[0]` without a check (app.py:170), so an
  empty ColorThief palette raises `IndexError` and that style is skipped
  (`StyledQrOutcome`, `EmptyPalette`).
- Only `logo` and `gradient` have branches of their own (app.py:183, 204);
  every other style name renders classic and names the file after it
  (`DispatchStyle`, `StyledQrOutcome`).
- The logo file's existence is checked first, for every style (app.py:166);
  a missing logo fails every style with `LogoNotFound`. Only opening the
  logo with PIL is specific to the logo style (app.py:188, `LogoUnreadable`).
- `os.path.join` discards the folder when the style name starts with `/`
  (app.py:174-175). The relative path is then the file name alone
  (`RelativeQrPath`), and the image is saved at that file name, outside the
  static folder (`OutputFullPath`).

## Model

| member | source | states |
|---|---|---|
| `Colours.ParseHex` | app.py:214 | `ImageColor.getrgb` on a `#rrggbb` string: a colour exactly when the string is `#` and six hexadecimal digits of either case, each channel being its two digits read high first; otherwise the `ValueError` case |
| `Colours.FormatHex` | app.py:153 | `'#%02x%02x%02x'` gives `#` and six lower-case hex digits, and reading the string back gives the same colour |
| `Colours.DominantColours` | app.py:148-160 | when ColorThief is unavailable or raises, the palette is exactly `["#000000", "#FFFFFF"]`; otherwise there is one string per extracted colour, in order, each reading back as that colour |
| `Colours.ChooseColours` | app.py:170-171 | no colours exactly when the palette is empty (`colors[0]` raises); fill is the first entry; background is the second entry, or `#FFFFFF` for a one-entry palette |
| `Colours.StartColour` | app.py:213-217 | the gradient starts at the fill colour read as RGB, or at black when reading it fails |
| `Colours.FallbackColours` | app.py:148-171 | without ColorThief the fill is `#000000` and the background `#FFFFFF`; the gradient then starts at black and `#FFFFFF` reads as white |
| `Colours.ChosenColours` | app.py:169-171 | for any usable palette the gradient starts at the most dominant colour (black for the fallback); a one-entry palette gets a `#FFFFFF` background, a longer one its second colour |
| `Text.Strip` | app.py:273 | `strip()` leaves a contiguous part of the string, removes only whitespace before and after it, and the result neither starts nor ends with whitespace |
| `Text.TrimRight` | app.py:297 | `rstrip` removes exactly the longest suffix of stripped characters, and the result does not end in one |
| `Text.AfterLast` | static/app.js:75 | `split(sep).pop()` is the longest suffix without `sep`: the whole string, or what follows its last `sep` |
| `Text.BeforeFirst` | static/app.js:76 | `split(sep)[0]` is the longest prefix without `sep`: the whole string, or what precedes its first `sep` |
| `Text.Decimal` | app.py:173 | `str(int(time.time()))` is a non-empty string of digits without a leading zero |
| `Text.DecimalRoundTrip` | app.py:173 | reading the decimal text back gives the number |
| `Naming.UuidPrefix` | app.py:173 | `str(uuid4())[:8]` is 8 lower-case hex digits whose value is the UUID's top 32 bits |
| `Naming.QrFileName` | app.py:173 | the file name is the style followed by `_`, ends in `.png`, is 14 characters plus the style and the seconds longer, and has a `/` only if the style has one |
| `Naming.QrFileNameInjective` | app.py:173 | two file names coincide only when the style, the second and the UUID's top 32 bits all coincide, for every style |
| `Naming.RelativeQrPath` | app.py:175 | the relative path is `qrcodes/` plus the file name, or the file name alone when the style starts with `/` |
| `Naming.Join` | app.py:174-175 | `posixpath.join`: a second part starting with `/` replaces the first; otherwise the parts are joined with one `/`, or none when the first is empty or ends in `/` |
| `Naming.OutputFullPath` | app.py:174 | the image is saved at `static/qrcodes/` plus the file name when the style does not start with `/`, and at the file name alone when it does |
| `Naming.StaticUrl` | app.py:309 | the URL of a saved image is `/static/` followed by its relative path |
| `Compositor.DispatchStyle` | app.py:183-234 | exactly `"logo"` takes the logo branch and exactly `"gradient"` the gradient branch; every other string renders classic |
| `Compositor.GradientChannel` | app.py:224-226 | a row's channel is at least the start channel and equals it in row 0 |
| `Compositor.GradientChannelMonotone` | app.py:222-226 | a channel never decreases from one row to a lower one |
| `Compositor.GradientRows` | app.py:219-226 | row 0 is the start colour; every row lies between the start colour and white, channel by channel; rows get lighter going down |
| `Compositor.DrawRow` | app.py:229 | the line fills every pixel of row `y` with the given pixel and changes no other row |
| `Compositor.GradientLayer` | app.py:208-229 | the new layer has the code's size, and every pixel of row `y` is that row's gradient colour at alpha 50 |
| `Compositor.CentreSize` | app.py:190-191 | the logo side `int(W * 0.25)` is `W` divided by 4, rounded down |
| `Compositor.LogoOffset` | app.py:199 | the square always fits horizontally, with left and right margins that differ by at most 1; it fits vertically exactly when the canvas is at least as tall as the square, again with margins that differ by at most 1 |
| `Compositor.PasteMasked` | app.py:202 | pixels under a set mask pixel take the logo's pixel; all other pixels keep their value, including those outside the square or under a clear mask pixel |
| `Compositor.CopyRaster` | app.py:201 | the copy is a new raster with the same size and pixels |
| `Compositor.ComposeLogo` | app.py:185-202 | the result is a new raster equal to the rendered code except under the centred mask, where it shows the logo; the rendered code itself is unchanged |
| `Compositor.RenderStyle` | app.py:181-234 | classic returns the rendered code; gradient overlays it with the gradient layer started at the fill colour; logo returns the composed copy; the rendered code is never changed |
| `StyledQr.StyledQrOutcome` | app.py:162-239 | a path is returned exactly when the logo file exists, the palette is non-empty, the data fits, the logo opens (logo style only) and the save succeeds; the path is then the relative path of that style's file name; a missing logo file is always the failure reported |
| `CreateHandler.ValidationFailure` | app.py:262-270 | the title check comes first, then the logo check, then the styles check; each message is returned exactly when its check is the first to fail; there is no message when all pass |
| `CreateHandler.SaveFailedMessage` | app.py:280-284 | the message for a failed logo save is never empty |
| `CreateHandler.LinkPairs` | app.py:273 | the kept pairs are no more than either list, and both halves of each are filled |
| `CreateHandler.FilledIffStripped` | app.py:273 | a field passes the `strip()` test exactly when it has a non-whitespace character |
| `CreateHandler.LinkPairsAppend` | app.py:273 | the filter works position by position, so the kept pairs keep the form's order |
| `CreateHandler.LinkPairsTruncate` | app.py:273 | entries of the longer list beyond the shorter one are ignored |
| `CreateHandler.LinkPairsMembership` | app.py:273 | a pair is kept exactly when some common position holds it and both halves are filled |
| `CreateHandler.LandingUrl` | app.py:295-299 | with a public host the URL is the host without trailing slashes followed by `/qr/<id>`; otherwise it is the request's root followed by `/qr/<id>` |
| `CreateHandler.SlashTrimmedUnique` | app.py:297 | the slash-trimmed host is uniquely determined, so `LandingUrl` is determined too |
| `CreateHandler.Reported` | app.py:301-313 | no more URLs are reported than styles were tried |
| `CreateHandler.ReportedAppend` | app.py:302-313 | the reported URLs of two runs of calls are concatenated; a call that raised contributes nothing and does not affect later calls |
| `CreateHandler.ReportedEmpty` | app.py:317-318 | nothing is reported exactly when every call raised |
| `CreateHandler.ReportedMembership` | app.py:301-313 | every returned path is reported as its static URL, and every reported URL comes from a returned path |
| `CreateHandler.GenerateStyles` | app.py:301-313 | the loop's `qr_paths` are the static URLs of the styles whose call with the landing URL succeeded, in request order |
| `CreateHandler.HandleCreate` | app.py:255-320 | a failed check answers with its message, stores nothing and encodes nothing; so does a failed logo save; otherwise the stored record holds the title, the kept pairs and the unique id, and every style is called with the landing URL built from that id; the answer succeeds exactly when some style succeeded; its paths are then non-empty; a failure message is never empty |
| `Client.FileNameOf` | static/app.js:75 | the file name is the text after the last `/` of the path, or the whole path |
| `Client.StyleNameOf` | static/app.js:76 | the style name is the text before the first `_` of the file name, or the whole file name; it never contains `_` or `/` |
| `Client.StyleNameRoundTrip` | static/app.js:75-76 | for a file named by the server with a style free of `_` and `/`, the parsed style name is that style, behind any path prefix, including the reported static URL as modelled without percent-encoding |
| `Client.BoxFor` | static/app.js:71-82 | a box's image source and download link are both the path |
| `Client.BoxForGenerated` | static/app.js:76-81 | for a generated image the caption is `<style> Style` and the download name is `qr_<style>.png` |
| `Client.ErrorTextFor` | static/app.js:92 | the error text is never empty and is the server's message whenever that message is non-empty |
| `Client.ResultView.ShowLoading` | static/app.js:49-51 | the area holds only the loading note, and the error text is cleared and hidden |
| `Client.ResultView.ShowResult` | static/app.js:68-94 | on success the area holds exactly one box per path, in order, and the error line is untouched; on failure it holds only the failure note, and the error line shows the message or the fixed text |
| `Client.ResultView.ShowConnectionError` | static/app.js:95-99 | a failed request shows the connection note and the fixed connection error |

## Left out

- QR encoding (`qrcode.QRCode`, `add_data`, `make(fit=True)`, `make_image`, app.py:177-179). This foreign library does version fitting, error correction and module rendering. The rendered code is an input raster, and which data fit is the `fits` predicate of `StyleEnv`.
- Canvas sizing (`(N + 2·border)·box_size`) and classic rendering of modules into fill/background blocks: both are the QR library's, so the model has no link between the chosen colours and the base raster's pixels.
- ColorThief quantisation and its `color_count=3` argument: its answer is the `PaletteSource` input.
- LANCZOS resampling of the logo and rasterisation of the ellipse mask: both are PIL's. The resized logo and the mask are input rasters, and the mask is two-valued, as PIL's unfilled/filled ellipse is.
- Compositor.RenderStyle: does not state the blended pixels of the gradient style, because `Image.alpha_composite`'s rounding is PIL's; the result is the pair of rendered code and gradient layer.
- `ImageColor.getrgb` beyond `#rrggbb`: `Colours.ParseHex` reads only the six-digit form, in either case. The fill colours here always have that form.
- Opening the logo with PIL and saving the image (`Image.open`, `save`): only whether they succeed is modelled, as flags.
- `time.time()` and `uuid.uuid4()`: they are parameters (`secs`, `uuid`).
- File system: `os.path.exists` is a flag, saving the upload is `logoSaveError`, and `os.makedirs` is not modelled. The uploaded logo's name and paths (app.py:276-278) are not built: `logo_full_path` is the input of every `create_styled_qr` call (app.py:304), but what the file system, ColorThief and PIL do with it (app.py:166, 169, 188) reaches the model as the `StyleEnv` fields `logoExists`, `palette` and `logoOpens`; `logo_relative_path` is stored in the database, which is not modelled.
- Naming.RelativeQrPath: models `posixpath.join` only; Windows separators and their replacement by `/` are not modelled.
- Naming.StaticUrl and CreateHandler.LandingUrl: `url_for`'s percent-encoding and application script root are not modelled; the application is assumed at the root.
- Client.StyleNameRoundTrip: holds for the reported URL only when `url_for` leaves the style unescaped; a style such as `a b` is reported as `/static/qrcodes/a%20b_...` and read back as `a%20b`.
- Flask, login and persistence: routes, templates, authentication, password hashing, the SQLAlchemy models, the `GeneratedFile` rows, the commits, and the `scan_count`/`click_count` increments (app.py:330, app.py:341).
- Network and process plumbing (`detect_local_ip`, the ngrok tunnel, `app.run`, app.py:32-81 and 408-442), and `debug_render_dashboard.py`, which only renders a template.
- The rest of `static/app.js`: DOM event wiring, `fetch`, the submit button's state, adding and removing link inputs, and the form reset after success (static/app.js:1-58, 86-88, 100-105). The HTML markup of a box (alt text, CSS capitalisation) is reduced to its caption, source, link and download name.
