/**
 * Output naming (app.py:173-175): the generated file is called
 * `{style}_{secs}_{8 hex digits}.png` and lives under `qrcodes/` inside the
 * static folder; the browser receives it as a `/static/...` URL (app.py:309).
 */
module Naming {
  import opened Results
  import opened Text

  /** A UUID as its 128-bit integer value (`uuid.uuid4().int`). */
  type Uuid = x: nat | x < 0x1_0000_0000_0000_0000_0000_0000_0000_0000

  /** 2^96: dividing a UUID by it leaves its first 32 bits, the first group of its text form. */
  const Bits96: nat := 0x1_0000_0000_0000_0000_0000_0000

  const StaticFolder := "static"
  const QrSubdir := "qrcodes"

  /** `str(u)[:8]`: the canonical text of a UUID starts with its top 32 bits as 8 lower-case hex digits. */
  function UuidPrefix(u: Uuid): (r: string)
    ensures |r| == 8
    ensures forall i :: 0 <= i < 8 ==> IsLowerHex(r[i])
    ensures HexValue(r) == Some(u / Bits96)
  {
    assert Pow16(8) == 0x1_0000_0000;
    HexRoundTrip(u / Bits96, 8);
    FixedHex(u / Bits96, 8)
  }

  /**
   * `f"{style}_{int(time.time())}_{str(uuid.uuid4())[:8]}.png"` with the
   * truncated clock reading `secs` and the UUID `u` as inputs.
   */
  function QrFileName(style: string, secs: nat, u: Uuid): (name: string)
    ensures |name| == |style| + |Decimal(secs)| + 14
    ensures name[..|style|] == style && name[|style|] == '_'
    ensures name[|name| - 4..] == ".png"
    ensures '/' in name ==> '/' in style
  {
    var name := style + "_" + Decimal(secs) + "_" + UuidPrefix(u) + ".png";
    assert forall i :: |style| <= i < |name| ==> name[i] != '/';
    name
  }

  /**
   * Python's `posixpath.join(a, b)`: a second argument that starts with `/`
   * replaces the first; otherwise one `/` separates them unless `a` is
   * empty or already ends in one.
   */
  function Join(a: string, b: string): (r: string)
    ensures |b| > 0 && b[0] == '/' ==> r == b
    ensures (|b| == 0 || b[0] != '/') && a != [] && a[|a| - 1] != '/' ==> r == a + "/" + b
    ensures (|b| == 0 || b[0] != '/') && (a == [] || a[|a| - 1] == '/') ==> r == a + b
  {
    if |b| > 0 && b[0] == '/' then b
    else if a == [] || a[|a| - 1] == '/' then a + b
    else a + "/" + b
  }

  /**
   * `output_relative_path` (app.py:175) on a POSIX host, where replacing
   * `os.path.sep` by `/` changes nothing: `qrcodes/<file name>` unless the
   * style starts with `/`, in which case the join discards the folder.
   */
  function RelativeQrPath(style: string, secs: nat, u: Uuid): (path: string)
    ensures style == [] || style[0] != '/' ==> path == "qrcodes/" + QrFileName(style, secs, u)
    ensures style != [] && style[0] == '/' ==> path == QrFileName(style, secs, u)
  {
    var name := QrFileName(style, secs, u);
    assert style == [] ==> name[0] == '_';
    assert style != [] ==> name[0] == style[0];
    Join(QrSubdir, name)
  }

  /**
   * `output_full_path` (app.py:174): where the image is saved. A style that
   * starts with `/` makes the join discard `static/qrcodes`, so the image is
   * saved at that absolute path, outside the static folder.
   */
  function OutputFullPath(style: string, secs: nat, u: Uuid): (path: string)
    ensures style == [] || style[0] != '/' ==> path == "static/qrcodes/" + QrFileName(style, secs, u)
    ensures style != [] && style[0] == '/' ==> path == QrFileName(style, secs, u)
  {
    var name := QrFileName(style, secs, u);
    assert style == [] ==> name[0] == '_';
    assert style != [] ==> name[0] == style[0];
    Join(Join(StaticFolder, QrSubdir), name)
  }

  /** `url_for('static', filename=rel)` for an application mounted at the root. */
  function StaticUrl(rel: string): (url: string)
    ensures |url| == |rel| + 8 && url[..8] == "/static/" && url[8..] == rel
  {
    "/static/" + rel
  }

  /**
   * Two file names only coincide when style, clock second and the first 32
   * bits of the UUID all do: a clash within one second needs equal 32-bit
   * UUID prefixes. This holds for every style, `_` and `/` included, because
   * the UUID prefix has a fixed width and the seconds have no `_`.
   */
  lemma {:induction false} QrFileNameInjective(s1: string, t1: nat, u1: Uuid, s2: string, t2: nat, u2: Uuid)
    requires QrFileName(s1, t1, u1) == QrFileName(s2, t2, u2)
    ensures s1 == s2 && t1 == t2 && u1 / Bits96 == u2 / Bits96
  {
    var d1, d2 := Decimal(t1), Decimal(t2);
    var p1, p2 := UuidPrefix(u1), UuidPrefix(u2);
    var n := QrFileName(s1, t1, u1);
    var m := |n| - 13;
    assert n == (s1 + "_" + d1) + "_" + p1 + ".png";
    assert n == (s2 + "_" + d2) + "_" + p2 + ".png";
    assert p1 == p2 by {
      assert p1 == n[m + 1..m + 9] && p2 == n[m + 1..m + 9];
    }
    assert '_' !in d1 && '_' !in d2 by {
      assert forall i :: 0 <= i < |d1| ==> IsDigit(d1[i]);
      assert forall i :: 0 <= i < |d2| ==> IsDigit(d2[i]);
    }
    assert s1 + "_" + d1 == n[..m] == s2 + "_" + d2;
    AfterLastOfJoin(s1, '_', d1);
    AfterLastOfJoin(s2, '_', d2);
    assert d1 == d2;
    DecimalRoundTrip(t1);
    DecimalRoundTrip(t2);
    assert s1 == n[..|s1|] && s2 == n[..|s2|];
  }
}
