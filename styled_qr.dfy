/**
 * What `create_styled_qr` (app.py:162-239) returns or raises for one style.
 * The path it returns does not depend on any pixel, so it is a function of
 * the style and of what the outside world does during the call: whether the
 * logo file exists, what ColorThief gives back, the clock second and UUID,
 * which data fit a QR code, whether PIL can open the logo, and whether
 * saving succeeds.
 */
module StyledQr {
  import opened Results
  import opened Colours
  import opened Naming
  import opened Compositor

  datatype StyleEnv = StyleEnv(
    logoExists: bool,      // os.path.exists(logo_full_path)
    palette: PaletteSource, // ColorThief's answer
    secs: nat,             // int(time.time())
    uuid: Uuid,            // uuid.uuid4()
    fits: string -> bool,  // qr.make(fit=True) finds a version for this data
    logoOpens: bool,       // Image.open(logo_full_path) succeeds
    saved: bool)           // qr_img.save(output_full_path) succeeds

  /** The exception `create_styled_qr` raises. */
  datatype StyleError =
    | LogoNotFound    // FileNotFoundError, app.py:166-167
    | EmptyPalette    // IndexError at colors[0], app.py:170
    | DataTooLong     // the QR encoder's overflow error, app.py:179
    | LogoUnreadable  // PIL cannot open the logo, app.py:188
    | WriteFailed     // saving the image fails, app.py:237

  /**
   * The outcome of `create_styled_qr(dataUrl, logo_full_path, style)`:
   * the relative path of the written file, or the first exception raised in
   * source order. The logo path reaches the model only through what the
   * file system, ColorThief and PIL do with it (`logoExists`, `palette`,
   * `logoOpens`). Every style name, known or not, writes a file: only the
   * logo style has a failure of its own.
   */
  function StyledQrOutcome(env: StyleEnv, dataUrl: string, style: string): (r: Result<string, StyleError>)
    ensures r.Ok? <==>
      env.logoExists && env.palette != Extracted([]) && env.fits(dataUrl) &&
      (style == "logo" ==> env.logoOpens) && env.saved
    ensures r.Ok? ==> r.value == RelativeQrPath(style, env.secs, env.uuid)
    ensures r == Err(LogoNotFound) <==> !env.logoExists
    ensures r == Err(LogoUnreadable) ==> style == "logo"
  {
    if !env.logoExists then Err(LogoNotFound)
    else match ChooseColours(DominantColours(env.palette))
      case None => Err(EmptyPalette)
      case Some(colours) =>
        var path := RelativeQrPath(style, env.secs, env.uuid);
        if !env.fits(dataUrl) then Err(DataTooLong)
        else if DispatchStyle(style) == Logo && !env.logoOpens then Err(LogoUnreadable)
        else if !env.saved then Err(WriteFailed)
        else Ok(path)
  }
}
