/**
 The names given to downloaded assets inside a batch directory:
 `<id>_image_<i>.jpg` and `<id>_video_<i>.mp4`, where `<i>` is the asset's
 position in the ad's array. The scheme can be read back: a name determines
 the id text, the kind and the position it was built from.
 */
module FileNames {
  import opened JsValues
  import opened Ads

  /** "_image_" or "_video_", the part between the id and the position. */
  function Infix(kind: Kind): (s: string)
    ensures |s| == 7 && s[6] == '_'
  {
    match kind
    case ImageAsset => "_image_"
    case VideoAsset => "_video_"
  }

  /** ".jpg" or ".mp4", the extension that ends the name. */
  function Extension(kind: Kind): (s: string)
    ensures |s| == 4
  {
    match kind
    case ImageAsset => ".jpg"
    case VideoAsset => ".mp4"
  }

  /** The name an asset is saved under: id text, kind infix, position, extension. */
  function FileName(id: string, kind: Kind, index: nat): (name: string)
    ensures |name| >= |id| + 12 && name[..|id|] == id
    ensures name[|id|..|id| + 7] == Infix(kind) && name[|name| - 4..] == Extension(kind)
    ensures Canonical(name[|id| + 7..|name| - 4]) && DigitsToNat(name[|id| + 7..|name| - 4]) == index
  {
    NatToStringRoundTrip(index);
    var name := id + Infix(kind) + NatToString(index) + Extension(kind);
    assert name[|id| + 7..|name| - 4] == NatToString(index);
    name
  }

  /** The longest suffix of `s` made of digits. */
  function TrailingDigits(s: string): (d: string)
    ensures |d| <= |s| && d == s[|s| - |d|..]
    ensures AllDigits(d)
    ensures |d| < |s| ==> !IsDigit(s[|s| - |d| - 1])
  {
    if s != [] && IsDigit(s[|s| - 1]) then
      var d := TrailingDigits(s[..|s| - 1]) + [s[|s| - 1]];
      assert s == s[..|s| - 1] + [s[|s| - 1]];
      d
    else
      []
  }

  /** The extension at the end of `name` names a kind. */
  function KindOfExtension(name: string): (r: Option<Kind>)
    ensures r.Some? ==> |name| >= 4 && name[|name| - 4..] == Extension(r.value)
  {
    if |name| < 4 then None
    else if name[|name| - 4..] == ".jpg" then Some(ImageAsset)
    else if name[|name| - 4..] == ".mp4" then Some(VideoAsset)
    else None
  }

  /** Reads an asset file name back into id text, kind and position. */
  function ParseFileName(name: string): Option<(string, Kind, nat)>
  {
    match KindOfExtension(name)
    case None => None
    case Some(kind) =>
      var stem := name[..|name| - 4];
      var digits := TrailingDigits(stem);
      var rest := stem[..|stem| - |digits|];
      if Canonical(digits) && |rest| >= 7 && rest[|rest| - 7..] == Infix(kind) then
        Some((rest[..|rest| - 7], kind, DigitsToNat(digits)))
      else
        None
  }

  /** The digits after a separator that is not a digit are exactly the trailing digits. */
  lemma {:induction false} TrailingDigitsAfterSeparator(p: string, d: string)
    requires |p| > 0 && !IsDigit(p[|p| - 1])
    requires AllDigits(d)
    ensures TrailingDigits(p + d) == d
    decreases |d|
  {
    var s := p + d;
    if d == [] {
      assert s == p;
    } else {
      var d' := d[..|d| - 1];
      assert s[..|s| - 1] == p + d';
      TrailingDigitsAfterSeparator(p, d');
      assert d == d' + [d[|d| - 1]];
    }
  }

  /** A name ending in the extension of `kind` is recognised as that kind. */
  lemma ExtensionRecognised(stem: string, kind: Kind)
    ensures KindOfExtension(stem + Extension(kind)) == Some(kind)
  {
  }

  /** Parsing a built name gives back what it was built from. */
  lemma ParseBuiltName(id: string, kind: Kind, index: nat)
    ensures ParseFileName(FileName(id, kind, index)) == Some((id, kind, index))
  {
    // Each step below follows from the contracts; spelling them out keeps the proof stable.
    var digits := NatToString(index);
    var rest := id + Infix(kind);
    var stem := rest + digits;
    var name := FileName(id, kind, index);
    assert name == stem + Extension(kind);
    ExtensionRecognised(stem, kind);
    assert name[..|name| - 4] == stem;
    TrailingDigitsAfterSeparator(rest, digits);
    assert stem[..|stem| - |digits|] == rest;
    assert rest[|rest| - 7..] == Infix(kind);
    assert rest[..|rest| - 7] == id;
    NatToStringRoundTrip(index);
  }

  /** Only built names parse, and each parses to what it was built from. */
  lemma ParsedNameIsBuilt(name: string, id: string, kind: Kind, index: nat)
    requires ParseFileName(name) == Some((id, kind, index))
    ensures FileName(id, kind, index) == name
  {
    assert KindOfExtension(name) == Some(kind);
    var stem := name[..|name| - 4];
    var digits := TrailingDigits(stem);
    var rest := stem[..|stem| - |digits|];
    assert Canonical(digits) && |rest| >= 7 && rest[|rest| - 7..] == Infix(kind);
    assert id == rest[..|rest| - 7] && index == DigitsToNat(digits);
    CanonicalRoundTrip(digits);
    assert rest == id + Infix(kind);
    assert stem == rest + digits;
    assert name == stem + Extension(kind);
  }

  /** Two assets get the same file name exactly when id text, kind and position all agree. */
  lemma FileNameInjective(id1: string, kind1: Kind, index1: nat, id2: string, kind2: Kind, index2: nat)
    ensures FileName(id1, kind1, index1) == FileName(id2, kind2, index2)
            <==> id1 == id2 && kind1 == kind2 && index1 == index2
  {
    ParseBuiltName(id1, kind1, index1);
    ParseBuiltName(id2, kind2, index2);
  }
}
