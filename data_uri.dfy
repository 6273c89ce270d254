/** Data URIs of base64-encoded images: recognising the product image supplied by
    the form (the pattern `^data:(image\/\w+);base64,(.*)$` with the dot matching
    newlines) and forming the URI of the generated image. */
module DataUri {
  import opened Wrappers

  /** A character of the regular-expression class `\w`: an ASCII letter, digit or `_`. */
  predicate IsWordChar(c: char) {
    ('A' <= c <= 'Z') || ('a' <= c <= 'z') || ('0' <= c <= '9') || c == '_'
  }

  /** The prefix the pattern demands before the image subtype. */
  const DATA_IMAGE := "data:image/"

  /** The separator between the media type and the payload. */
  const BASE64_MARKER := ";base64,"

  /** A media type the pattern's first group accepts: `image/` followed by one or more
      word characters. */
  predicate IsImageMimeType(m: string) {
    |m| > 6 && m[..6] == "image/" && forall k | 6 <= k < |m| :: IsWordChar(m[k])
  }

  /** `data:<mimeType>;base64,<data>`. */
  function FormatDataUri(mimeType: string, data: string): string {
    "data:" + mimeType + BASE64_MARKER + data
  }

  /** The length of the run of word characters that starts `s` (how far `\w+` reaches). */
  function WordRun(s: string): (n: nat)
    ensures n <= |s|
    ensures forall k | 0 <= k < n :: IsWordChar(s[k])
    ensures n < |s| ==> !IsWordChar(s[n])
  {
    if s == [] || !IsWordChar(s[0]) then 0 else 1 + WordRun(s[1..])
  }

  /** The match of the product-image pattern: the media type and the payload, or `None`
      when the string does not match. A match splits the string back into its parts. */
  function ParseDataUri(s: string): (r: Option<(string, string)>)
    ensures r.Some? ==> IsImageMimeType(r.value.0) && s == FormatDataUri(r.value.0, r.value.1)
  {
    if |s| < |DATA_IMAGE| || s[..|DATA_IMAGE|] != DATA_IMAGE then None
    else
      assert s == DATA_IMAGE + s[|DATA_IMAGE|..];
      ParseSubtype(s[|DATA_IMAGE|..])
  }

  /** The rest of the pattern after `data:image/`: the subtype `\w+`, the marker and the
      payload. A match splits `DATA_IMAGE + rest` back into its parts. */
  function ParseSubtype(rest: string): (r: Option<(string, string)>)
    ensures r.Some? ==> IsImageMimeType(r.value.0) && DATA_IMAGE + rest == FormatDataUri(r.value.0, r.value.1)
  {
    var n := WordRun(rest);
    if n == 0 || |rest| - n < |BASE64_MARKER| || rest[n..n + |BASE64_MARKER|] != BASE64_MARKER then None
    else
      var data := rest[n + |BASE64_MARKER|..];
      assert rest == rest[..n] + rest[n..n + |BASE64_MARKER|] + data;
      Some(("image/" + rest[..n], data))
  }

  /** The word run of `w + [c] + q`, for a word `w` and a non-word `c`, is exactly `w`. */
  lemma WordRunStops(w: string, c: char, q: string)
    requires forall k | 0 <= k < |w| :: IsWordChar(w[k])
    requires !IsWordChar(c)
    ensures WordRun(w + [c] + q) == |w|
  {
    assert (w + [c] + q)[|w|] == c;
  }

  /** Past the fixed prefix, only the rest of the string decides the match. */
  lemma ParseAfterPrefix(rest: string)
    ensures ParseDataUri(DATA_IMAGE + rest) == ParseSubtype(rest)
  {
    var s := DATA_IMAGE + rest;
    assert s[..|DATA_IMAGE|] == DATA_IMAGE && s[|DATA_IMAGE|..] == rest;
  }

  /** Every image data URI is recognised, and the match gives back exactly the media type
      and the payload it was formed from, whatever the payload holds (line breaks included). */
  lemma ParseFormat(mimeType: string, data: string)
    requires IsImageMimeType(mimeType)
    ensures ParseDataUri(FormatDataUri(mimeType, data)) == Some((mimeType, data))
  {
    var w := mimeType[6..];
    var q := "base64," + data;
    var rest := w + [';'] + q;
    assert mimeType == "image/" + w;
    assert FormatDataUri(mimeType, data) == DATA_IMAGE + rest;
    WordRunStops(w, ';', q);
    ParseAfterPrefix(rest);
    assert rest[..|w|] == w;
    assert rest[|w|..|w| + |BASE64_MARKER|] == BASE64_MARKER;
    assert rest[|w| + |BASE64_MARKER|..] == data;
  }

  /** A string matches the pattern exactly when it is some image data URI; with
      `ParseFormat` the match is unique. */
  lemma ParseIff(s: string)
    ensures ParseDataUri(s).Some? <==>
      exists m, d :: IsImageMimeType(m) && s == FormatDataUri(m, d)
  {
    if exists m, d :: IsImageMimeType(m) && s == FormatDataUri(m, d) {
      var m, d :| IsImageMimeType(m) && s == FormatDataUri(m, d);
      ParseFormat(m, d);
    }
  }

  /** A subtype whose word run is followed by anything but `;` is refused. */
  lemma RejectsNonWordSubtype(w: string, c: char, q: string)
    requires forall k | 0 <= k < |w| :: IsWordChar(w[k])
    requires !IsWordChar(c) && c != ';'
    ensures ParseDataUri(DATA_IMAGE + w + [c] + q) == None
  {
    var rest := w + [c] + q;
    assert DATA_IMAGE + w + [c] + q == DATA_IMAGE + rest;
    ParseAfterPrefix(rest);
    WordRunStops(w, c, q);
    if |rest| - |w| >= |BASE64_MARKER| {
      assert rest[|w|..|w| + |BASE64_MARKER|][0] == c;
    }
  }

  /** `image/svg+xml` does not match: `+` is not a word character. */
  lemma RejectsSvg()
    ensures ParseDataUri("data:image/svg+xml;base64,PHN2Zz4=") == None
  {
    assert "data:image/svg+xml;base64,PHN2Zz4=" == DATA_IMAGE + "svg" + ['+'] + "xml;base64,PHN2Zz4=";
    RejectsNonWordSubtype("svg", '+', "xml;base64,PHN2Zz4=");
  }

  /** A PNG data URI yields the media type `image/png` and its payload. */
  lemma AcceptsPng()
    ensures ParseDataUri("data:image/png;base64,iVBORw0KGgo=") == Some(("image/png", "iVBORw0KGgo="))
  {
    assert "data:image/png;base64,iVBORw0KGgo=" == FormatDataUri("image/png", "iVBORw0KGgo=");
    ParseFormat("image/png", "iVBORw0KGgo=");
  }
}
