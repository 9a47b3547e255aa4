/** The card image filter (`parseUrl`, index.ts 192-201): a thumbnail URL for
    a file that is a raster image, nothing otherwise. */
module CardImage {
  import opened Js
  import opened KanbanTypes

  const CropFit := "&width=250&height=150"
  const ContainFit := "&key=system-medium-contain"

  /** The file's MIME type names a non-SVG image. A `type` that is not a
      string is treated as no type. */
  predicate IsRasterImage(file: Value) {
    Truthy(file) && Prop(file, "type").Str? && Truthy(Prop(file, "type"))
    && StartsWith(Prop(file, "type").s, "image")
    && !Includes(Prop(file, "type").s, "svg")
  }

  /** The asset URL before the token is added: the file's id and its
      modification stamp, then the size suffix. */
  function AssetUrl(root: string, file: Value, crop: bool): (u: string)
    ensures u == root + "assets/" + Show(Prop(file, "id")) + "?modified=" + Show(Prop(file, "modified_on"))
                 + (if crop then CropFit else ContainFit)
    ensures StartsWith(u, root + "assets/")
    ensures EndsWith(u, if crop then CropFit else ContainFit)
  {
    var fit := if crop then CropFit else ContainFit;
    var u := root + "assets/" + Show(Prop(file, "id")) + "?modified=" + Show(Prop(file, "modified_on")) + fit;
    assert u[..|root + "assets/"|] == root + "assets/";
    assert u[|u| - |fit|..] == fit;
    u
  }

  function ParseUrl(host: Host, file: Value, crop: bool): (r: Option<string>)
    ensures r.Some? <==> IsRasterImage(file)
    ensures r.Some? ==> r.value == host.addTokenToUrl(AssetUrl(host.rootPath, file, crop))
  {
    if !Truthy(file) || !Truthy(Prop(file, "type")) then None
    else if !Prop(file, "type").Str? then None
    else if !StartsWith(Prop(file, "type").s, "image") then None
    else if Includes(Prop(file, "type").s, "svg") then None
    else Some(host.addTokenToUrl(AssetUrl(host.rootPath, file, crop)))
  }

  /** Any file without a type, of a non-image type, or of an SVG type yields
      no image. */
  lemma NoImageUnlessRaster(host: Host, file: Value, crop: bool)
    ensures !Truthy(file) ==> ParseUrl(host, file, crop).None?
    ensures !Truthy(Prop(file, "type")) ==> ParseUrl(host, file, crop).None?
    ensures Prop(file, "type").Str? && !StartsWith(Prop(file, "type").s, "image") ==> ParseUrl(host, file, crop).None?
    ensures Prop(file, "type").Str? && Includes(Prop(file, "type").s, "svg") ==> ParseUrl(host, file, crop).None?
  {
  }

  /** An SVG file gets no image, whatever comes around the `svg`. */
  lemma {:induction false} SvgHasNoImage(host: Host, file: Value, crop: bool, before: string, after: string)
    requires Prop(file, "type") == Str(before + "svg" + after)
    ensures ParseUrl(host, file, crop).None?
  {
    IncludesInfix(before, "svg", after);
  }

  lemma {:induction false} IncludesInfix(before: string, sub: string, after: string)
    ensures Includes(before + sub + after, sub)
    decreases |before|
  {
    var s := before + sub + after;
    if before == [] {
      assert s[..|sub|] == sub;
    } else {
      assert s[1..] == before[1..] + sub + after;
      IncludesInfix(before[1..], sub, after);
    }
  }

  /** A file of type `image/svg+xml` gets no image. */
  lemma SvgMimeTypeHasNoImage(host: Host, file: Value, crop: bool)
    requires Prop(file, "type") == Str("image/svg+xml")
    ensures ParseUrl(host, file, crop).None?
  {
    assert "image/svg+xml" == "image/" + "svg" + "+xml";
    SvgHasNoImage(host, file, crop, "image/", "+xml");
  }

  /** A PNG file gets the tokenised asset URL. */
  lemma PngHasImage(host: Host, props: map<string, Value>, crop: bool)
    requires "type" in props && props["type"] == Str("image/png")
    ensures ParseUrl(host, Obj(props), crop) == Some(host.addTokenToUrl(AssetUrl(host.rootPath, Obj(props), crop)))
  {
    PngIsRaster(props);
  }

  lemma PngIsRaster(props: map<string, Value>)
    requires "type" in props && props["type"] == Str("image/png")
    ensures IsRasterImage(Obj(props))
  {
    assert "image/png"[..5] == "image";
    NoSvgInPng();
  }

  lemma NoSvgInPng()
    ensures !Includes("image/png", "svg")
  {
    assert 's' !in "image/png";
    AbsentFirstCharNotIncluded("image/png", "svg");
  }

  lemma {:induction false} AbsentFirstCharNotIncluded(s: string, sub: string)
    requires sub != [] && sub[0] !in s
    ensures !Includes(s, sub)
    decreases |s|
  {
    if s != [] {
      assert s[0] in s;
      assert forall c :: c in s[1..] ==> c in s;
      AbsentFirstCharNotIncluded(s[1..], sub);
    }
  }
}
