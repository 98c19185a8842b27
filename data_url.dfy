/**
 * The `data:` URL adapter of the generation service: `parseDataUrl`, which
 * splits `data:<media type>;base64,<data>` with the regular expression
 * `^data:(.+);base64,(.+)$`, and the template that re-encodes an inline image.
 * The accepted language is narrower than section 3 of RFC 2397: the media type
 * and the data must both be non-empty, `;base64` is mandatory, and (because
 * `.` does not match them) no line terminator may occur anywhere.
 */
module DataUrl {
  import opened Wrappers

  /** An inline image: its MIME type and its base64 payload, as two strings. */
  datatype InlineData = InlineData(mimeType: string, data: string)

  const Scheme := "data:"
  const Marker := ";base64,"
  const InvalidFormat := "Invalid data URL format provided."

  /** The characters JavaScript's `.` refuses to match. */
  predicate IsLineTerminator(c: char) {
    c == '\n' || c == '\r' || c == '\U{2028}' || c == '\U{2029}'
  }

  predicate NoLineTerminators(s: string) {
    forall i :: 0 <= i < |s| ==> !IsLineTerminator(s[i])
  }

  predicate HasScheme(s: string) {
    |Scheme| <= |s| && s[..|Scheme|] == Scheme
  }

  /**
   * `s` can be matched with the media type group ending at `p`: the marker
   * starts at `p`, with at least one character before it (after the scheme)
   * and at least one after it.
   */
  predicate SplitAt(s: string, p: int) {
    |Scheme| < p && p + |Marker| < |s| && s[p..p + |Marker|] == Marker
  }

  /** The strings the regular expression matches. */
  ghost predicate Accepts(s: string) {
    HasScheme(s) && NoLineTerminators(s) && exists p :: SplitAt(s, p)
  }

  /**
   * The greatest split point below `hi`: the position where the greedy first
   * group, backtracking from the end, first lets the rest of the pattern match.
   */
  function LastSplitBelow(s: string, hi: nat): (r: Option<nat>)
    ensures r.Some? ==> r.value < hi && SplitAt(s, r.value)
    ensures forall q :: (r.None? || r.value < q) && q < hi ==> !SplitAt(s, q)
  {
    if hi <= |Scheme| + 1 then None
    else if SplitAt(s, hi - 1) then Some(hi - 1)
    else LastSplitBelow(s, hi - 1)
  }

  /**
   * `parseDataUrl`: succeeds exactly on the accepted strings; the media type
   * runs from the scheme to the LAST marker that still leaves non-empty data,
   * and scheme, media type, marker and data put back together give `s`.
   */
  function ParseDataUrl(s: string): (r: Result<InlineData, string>)
    ensures r.Success? <==> Accepts(s)
    ensures r.Failure? ==> r.error == InvalidFormat
    ensures r.Success? ==>
      && r.value.mimeType != [] && r.value.data != []
      && SplitAt(s, |Scheme| + |r.value.mimeType|)
      && (forall q :: SplitAt(s, q) ==> q <= |Scheme| + |r.value.mimeType|)
      && s == EncodeDataUrl(r.value.mimeType, r.value.data)
  {
    if !(HasScheme(s) && NoLineTerminators(s)) then
      Failure(InvalidFormat)
    else
      match LastSplitBelow(s, |s|)
      case None => Failure(InvalidFormat)
      case Some(p) =>
        var r := InlineData(s[|Scheme|..p], s[p + |Marker|..]);
        assert s == s[..|Scheme|] + s[|Scheme|..p] + s[p..p + |Marker|] + s[p + |Marker|..];
        Success(r)
  }

  /**
   * The template `data:${mimeType};base64,${data}`. With a non-empty media
   * type and non-empty data its marker sits right after the media type, and
   * with no line terminator in either part the result is a string the
   * regular expression matches.
   */
  function EncodeDataUrl(mimeType: string, data: string): (s: string)
    ensures HasScheme(s)
    ensures mimeType != [] && data != [] ==> SplitAt(s, |Scheme| + |mimeType|)
    ensures mimeType != [] && data != [] && NoLineTerminators(mimeType) && NoLineTerminators(data) ==> Accepts(s)
  {
    var s := Scheme + mimeType + Marker + data;
    var p := |Scheme| + |mimeType|;
    assert s[..|Scheme|] == Scheme;
    assert s[p..p + |Marker|] == Marker;
    JoinKeepsNoLineTerminators(Scheme, mimeType);
    JoinKeepsNoLineTerminators(Scheme + mimeType, Marker);
    JoinKeepsNoLineTerminators(Scheme + mimeType + Marker, data);
    assert mimeType != [] && data != [] ==> SplitAt(s, p);
    s
  }

  lemma JoinKeepsNoLineTerminators(a: string, b: string)
    ensures NoLineTerminators(a) && NoLineTerminators(b) ==> NoLineTerminators(a + b)
  {
    if NoLineTerminators(a) && NoLineTerminators(b) {
      forall i | 0 <= i < |a + b| ensures !IsLineTerminator((a + b)[i]) {
        if i < |a| {
          assert (a + b)[i] == a[i];
        } else {
          assert (a + b)[i] == b[i - |a|];
        }
      }
    }
  }

  /** When the data holds no `;`, nothing after the encoder's marker can start another one. */
  lemma NoSemicolonAfterMarker(mimeType: string, data: string)
    requires ';' !in data
    ensures forall q :: |Scheme| + |mimeType| < q < |EncodeDataUrl(mimeType, data)| ==>
      EncodeDataUrl(mimeType, data)[q] != ';'
  {
    var s := EncodeDataUrl(mimeType, data);
    var p := |Scheme| + |mimeType|;
    forall q | p < q < |s| ensures s[q] != ';' {
      if q < p + |Marker| {
        assert s[q] == Marker[q - p];
      } else {
        assert s[q] == data[q - p - |Marker|];
      }
    }
  }

  /**
   * Round trip: a non-empty media type and non-empty data, free of line
   * terminators and with no `;` in the data (base64 has none), encode to a
   * string that `parseDataUrl` splits back into exactly the same pair.
   */
  lemma RoundTrip(mimeType: string, data: string)
    requires mimeType != [] && data != []
    requires NoLineTerminators(mimeType) && NoLineTerminators(data)
    requires ';' !in data
    ensures ParseDataUrl(EncodeDataUrl(mimeType, data)) == Success(InlineData(mimeType, data))
  {
    var s := EncodeDataUrl(mimeType, data);
    var p := |Scheme| + |mimeType|;
    EncodedSlices(mimeType, data);
    var r := ParseDataUrl(s);
    var p' := |Scheme| + |r.value.mimeType|;
    NoSemicolonAfterMarker(mimeType, data);
    assert s[p'] == s[p'..p' + |Marker|][0] == ';';
    assert p' == p;
    assert r.value.mimeType == s[|Scheme|..p] == mimeType;
    assert r.value.data == s[p + |Marker|..] == data;
  }

  /** The media type and the data sit at fixed positions of the encoding. */
  lemma EncodedSlices(mimeType: string, data: string)
    ensures EncodeDataUrl(mimeType, data)[|Scheme|..|Scheme| + |mimeType|] == mimeType
    ensures EncodeDataUrl(mimeType, data)[|Scheme| + |mimeType| + |Marker|..] == data
  {
    var s := EncodeDataUrl(mimeType, data);
    assert s == Scheme + (mimeType + (Marker + data));
    assert s[|Scheme|..] == mimeType + (Marker + data);
    assert s[|Scheme| + |mimeType|..] == Marker + data;
  }

  /**
   * The first group is greedy: with two markers, the media type swallows the
   * first one and the data is what follows the second.
   */
  lemma GreedyMediaType()
    ensures ParseDataUrl("data:a;base64,b;base64,c") == Success(InlineData("a;base64,b", "c"))
  {
    assert "data:a;base64,b;base64,c" == "data:" + "a;base64,b" + ";base64," + "c";
    RoundTrip("a;base64,b", "c");
  }

  /**
   * Why the round trip asks for data without `;`: data that itself contains
   * the marker is not recovered, since encoding it gives the same string as
   * encoding a longer media type with shorter data.
   */
  lemma RoundTripNeedsMarkerFreeData()
    ensures ParseDataUrl(EncodeDataUrl("a", "b;base64,c")) != Success(InlineData("a", "b;base64,c"))
  {
    MarkerInDataShifts();
    GreedyMediaType();
  }

  /** Data holding the marker encodes to the same string as a longer media type with shorter data. */
  lemma MarkerInDataShifts()
    ensures EncodeDataUrl("a", "b;base64,c") == EncodeDataUrl("a;base64,b", "c")
  {
    assert "a" + Marker + "b;base64,c" == "a;base64,b" + Marker + "c";
  }
}
