/** Locating the firmware image of a device in a version's overview and
    per-profile documents: first matching profile, first acceptable image. */
module Profiles {
  import opened FirmwareTypes
  import opened Strings

  const TargetPlaceholder := "{target}"

  /** The build variants that can be flashed as an upgrade. */
  predicate AcceptedKind(kind: string) {
    kind == "sysupgrade" || kind == "nand-sysupgrade" || kind == "combined"
  }

  /** The index of the first profile whose id is `boardtype`. */
  function FirstProfile(profiles: seq<Profile>, boardtype: string): (r: Option<nat>)
    ensures r.Some? ==>
      r.value < |profiles| && profiles[r.value].id == boardtype &&
      forall j :: 0 <= j < r.value ==> profiles[j].id != boardtype
    ensures r.None? ==> forall j :: 0 <= j < |profiles| ==> profiles[j].id != boardtype
    decreases |profiles|
  {
    if |profiles| == 0 then None
    else if profiles[0].id == boardtype then Some(0)
    else match FirstProfile(profiles[1..], boardtype)
      case None => None
      case Some(k) => Some(k + 1)
  }

  /** The index of the first image of an accepted kind. */
  function FirstImage(images: seq<Image>): (r: Option<nat>)
    ensures r.Some? ==>
      r.value < |images| && AcceptedKind(images[r.value].kind) &&
      forall j :: 0 <= j < r.value ==> !AcceptedKind(images[j].kind)
    ensures r.None? ==> forall j :: 0 <= j < |images| ==> !AcceptedKind(images[j].kind)
    decreases |images|
  {
    if |images| == 0 then None
    else if AcceptedKind(images[0].kind) then Some(0)
    else match FirstImage(images[1..])
      case None => None
      case Some(k) => Some(k + 1)
  }

  /** image_url with every "{target}" replaced by the profile's target. */
  function TargetBase(imageUrl: string, target: string): string {
    ReplaceAll(imageUrl, TargetPlaceholder, target)
  }

  /** The download URL and expected hash of the first accepted image. */
  function ImageChoice(images: seq<Image>, base: string): Option<ImageRef> {
    match FirstImage(images)
    case None => None
    case Some(j) => Some(ImageRef(base + "/" + images[j].name, images[j].sha256))
  }

  /** The outer loop of lines 170-184: stops at the first profile with the
      wanted id. */
  method FindProfile(profiles: seq<Profile>, boardtype: string) returns (found: Option<nat>)
    ensures found == FirstProfile(profiles, boardtype)
  {
    found := None;
    var i := 0;
    while i < |profiles|
      invariant 0 <= i <= |profiles|
      invariant found.None?
      invariant forall j :: 0 <= j < i ==> profiles[j].id != boardtype
    {
      if profiles[i].id == boardtype {
        found := Some(i);
        break;
      }
      i := i + 1;
    }
  }

  /** The inner loop of lines 179-183: the first image of an accepted kind
      sets the firmware URL and hash and ends the scan. */
  method FindImage(images: seq<Image>, base: string) returns (found: Option<ImageRef>)
    ensures found == ImageChoice(images, base)
  {
    found := None;
    var i := 0;
    while i < |images|
      invariant 0 <= i <= |images|
      invariant found.None?
      invariant forall j :: 0 <= j < i ==> !AcceptedKind(images[j].kind)
    {
      var image := images[i];
      if AcceptedKind(image.kind) {
        found := Some(ImageRef(base + "/" + image.name, image.sha256));
        break;
      }
      i := i + 1;
    }
  }

  /** An image list led by a factory image and followed by a sysupgrade image
      yields the sysupgrade image. */
  lemma SysupgradeAfterFactory(base: string)
    ensures ImageChoice([Image("factory", "f.bin", "0"), Image("sysupgrade", "x.bin", "abc")], base)
      == Some(ImageRef(base + "/" + "x.bin", "abc"))
  {
    var images := [Image("factory", "f.bin", "0"), Image("sysupgrade", "x.bin", "abc")];
    assert !AcceptedKind(images[0].kind);
    assert FirstImage(images) == Some(1);
  }

  /** The first "{target}" of a URL template, preceded by text with no '{',
      gets the target in its place; the rest of the template, which may hold
      further placeholders, is substituted in turn. */
  lemma TargetBaseSubstitutes(left: string, rest: string, target: string)
    requires forall i :: 0 <= i < |left| ==> left[i] != '{'
    ensures TargetBase(left + TargetPlaceholder + rest, target) == left + target + TargetBase(rest, target)
  {
    ReplaceAllStep(left, TargetPlaceholder, target, rest);
  }

  /** Every "{target}" is replaced: a template made of '{'-free pieces joined
      by the placeholder becomes the same pieces joined by the target. */
  lemma TargetBaseReplacesEvery(pieces: seq<string>, target: string)
    requires forall i, k :: 0 <= i < |pieces| && 0 <= k < |pieces[i]| ==> pieces[i][k] != '{'
    ensures TargetBase(Join(pieces, TargetPlaceholder), target) == Join(pieces, target)
  {
    ReplaceAllJoin(pieces, TargetPlaceholder, target);
  }
}
