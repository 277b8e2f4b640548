/**
 * Accepting an uploaded image: HEIC/HEIF photos go through an external converter to
 * JPEG and are renamed with a .jpg extension; every other file is taken as it is.
 * The converter itself is outside the model; its outcome is an input.
 */
module Ingest {
  import opened Wrappers

  newtype byte = x: int | 0 <= x < 256

  datatype File = File(name: string, mime: string, bytes: seq<byte>)

  const JpegMime := "image/jpeg"

  /** The MIME types that are converted before use. */
  predicate NeedsConversion(mime: string): (r: bool)
    ensures r <==> mime in {"image/heic", "image/heif"}
    ensures r ==> mime != JpegMime
  {
    mime == "image/heic" || mime == "image/heif"
  }

  /** A character that ends an extension when scanning backwards: '.' or '/'. */
  predicate IsStop(ch: char) {
    ch == '.' || ch == '/'
  }

  /** The index of the last '.' or '/' in s, if there is one. */
  function LastStop(s: string): (r: Option<nat>)
    ensures r.Some? ==>
              && r.value < |s| && IsStop(s[r.value])
              && forall j :: r.value < j < |s| ==> !IsStop(s[j])
    ensures r.None? ==> forall j :: 0 <= j < |s| ==> !IsStop(s[j])
  {
    if s == [] then None
    else if IsStop(s[|s| - 1]) then Some(|s| - 1)
    else LastStop(s[..|s| - 1])
  }

  /**
   * Whether the pattern "a dot, then one or more characters that are neither '.' nor
   * '/', then the end of the name" matches starting at index i.
   */
  predicate IsExtensionDot(s: string, i: nat) {
    i < |s| - 1 && s[i] == '.' && forall j :: i < j < |s| ==> !IsStop(s[j])
  }

  /** Where the pattern matches, if anywhere (it can match at one index at most). */
  function ExtensionDot(s: string): (r: Option<nat>)
    ensures r.Some? ==> IsExtensionDot(s, r.value)
    ensures r.None? ==> forall i: nat :: !IsExtensionDot(s, i)
  {
    match LastStop(s)
    case Some(k) => if s[k] == '.' && k < |s| - 1 then Some(k) else None
    case None => None
  }

  /**
   * The name given to a converted file: the matched extension is replaced by ".jpg";
   * a name without one is kept as it is.
   */
  function JpgName(name: string): (r: string)
    ensures forall i: nat :: IsExtensionDot(name, i) ==> r == name[..i] + ".jpg"
    ensures (forall i: nat :: !IsExtensionDot(name, i)) ==> r == name
  {
    match ExtensionDot(name)
    case Some(i) =>
      assert forall k: nat :: IsExtensionDot(name, k) ==> k == i;
      name[..i] + ".jpg"
    case None => name
  }

  /** A name ending in ".jpg" after a non-empty run of non-stop characters keeps its extension match there. */
  lemma JpgSuffixMatches(stem: string)
    ensures IsExtensionDot(stem + ".jpg", |stem|)
  {
    var s := stem + ".jpg";
    assert s[|stem|..] == ".jpg";
  }

  /** Renaming twice is renaming once. */
  lemma JpgNameIdempotent(name: string)
    ensures JpgName(JpgName(name)) == JpgName(name)
  {
    match ExtensionDot(name)
    case Some(i) =>
      var stem := name[..i];
      assert JpgName(name) == stem + ".jpg";
      JpgSuffixMatches(stem);
      assert (stem + ".jpg")[..|stem|] == stem;
    case None =>
  }

  /**
   * The file the editor keeps after an upload, or None when there is none: conversion
   * is attempted exactly for HEIC/HEIF, and a failed conversion yields no image.
   */
  function Accept(file: File, converted: Option<seq<byte>>): (r: Option<File>)
    ensures r.None? <==> NeedsConversion(file.mime) && converted.None?
    ensures r.Some? ==> !NeedsConversion(r.value.mime)
    ensures !NeedsConversion(file.mime) ==> r == Some(file)
    ensures NeedsConversion(file.mime) && r.Some? ==>
              && r.value.mime == JpegMime
              && r.value.name == JpgName(file.name)
              && r.value.bytes == converted.value
  {
    if NeedsConversion(file.mime) then
      match converted
      case Some(bytes) => Some(File(JpgName(file.name), JpegMime, bytes))
      case None => None
    else
      Some(file)
  }
}
