/** Exporting the card: the download file name built from the student's name,
    and the three outcomes of `downloadIdCard` (nothing, a download, an alert).
    The rasteriser is a parameter: the data URL it produces, or the fact that it threw. */
module Download {
  import opened JsText

  /** The longest prefix of `s` made of whitespace, removed. */
  function DropWhitespace(s: string): (r: string)
    ensures |r| <= |s| && r == s[|s| - |r|..]
    ensures r == [] || !IsWhitespace(r[0])
    ensures forall i :: 0 <= i < |s| - |r| ==> IsWhitespace(s[i])
    decreases |s|
  {
    if s != [] && IsWhitespace(s[0]) then DropWhitespace(s[1..]) else s
  }

  /** `s.replace(/\s+/g, '_')`: every maximal run of whitespace becomes one underscore. */
  function Sanitize(s: string): (r: string)
    ensures |r| <= |s|
    ensures forall i :: 0 <= i < |r| ==> !IsWhitespace(r[i])
    decreases |s|
  {
    if s == [] then []
    else if IsWhitespace(s[0]) then "_" + Sanitize(DropWhitespace(s[1..]))
    else [s[0]] + Sanitize(s[1..])
  }

  /** A reference reading of the same replacement, one character at a time:
      a whitespace character becomes `_` when it opens a run and disappears
      when it continues one; any other character is copied. */
  function Scan(s: string, inRun: bool): string
    decreases |s|
  {
    if s == [] then []
    else if IsWhitespace(s[0]) then (if inRun then "" else "_") + Scan(s[1..], true)
    else [s[0]] + Scan(s[1..], false)
  }

  /** Inside a run, the rest of the run contributes nothing. */
  lemma {:induction false} ScanSkipsRun(s: string)
    ensures Scan(s, true) == Scan(DropWhitespace(s), false)
    decreases |s|
  {
    if s != [] {
      if IsWhitespace(s[0]) {
        ScanSkipsRun(s[1..]);
      }
    }
  }

  /** The replacement agrees with the character-by-character reading. */
  lemma {:induction false} SanitizeIsScan(s: string)
    ensures Sanitize(s) == Scan(s, false)
    decreases |s|
  {
    if s != [] {
      if IsWhitespace(s[0]) {
        ScanSkipsRun(s[1..]);
        SanitizeIsScan(DropWhitespace(s[1..]));
      } else {
        SanitizeIsScan(s[1..]);
      }
    }
  }

  /** A stem with no whitespace is left unchanged. */
  lemma {:induction false} SanitizeKeepsClean(s: string)
    requires forall i :: 0 <= i < |s| ==> !IsWhitespace(s[i])
    ensures Sanitize(s) == s
    decreases |s|
  {
    if s != [] {
      SanitizeKeepsClean(s[1..]);
    }
  }

  /** Sanitising twice is sanitising once. */
  lemma SanitizeIdempotent(s: string)
    ensures Sanitize(Sanitize(s)) == Sanitize(s)
  {
    SanitizeKeepsClean(Sanitize(s));
  }

  /** The characters that are neither whitespace nor `_`. */
  function Visible(s: string): string
    decreases |s|
  {
    if s == [] then []
    else if IsWhitespace(s[0]) || s[0] == '_' then Visible(s[1..])
    else [s[0]] + Visible(s[1..])
  }

  lemma {:induction false} VisibleSkipsWhitespace(s: string)
    ensures Visible(DropWhitespace(s)) == Visible(s)
    decreases |s|
  {
    if s != [] && IsWhitespace(s[0]) {
      VisibleSkipsWhitespace(s[1..]);
    }
  }

  /** Apart from the underscores it writes, the replacement keeps every other
      character, in order. */
  lemma {:induction false} SanitizeKeepsVisible(s: string)
    ensures Visible(Sanitize(s)) == Visible(s)
    decreases |s|
  {
    if s != [] {
      if IsWhitespace(s[0]) {
        SanitizeKeepsVisible(DropWhitespace(s[1..]));
        VisibleSkipsWhitespace(s[1..]);
        assert Visible(Sanitize(s)) == Visible(Sanitize(DropWhitespace(s[1..])));
      } else {
        SanitizeKeepsVisible(s[1..]);
        assert Sanitize(s) == [s[0]] + Sanitize(s[1..]);
      }
    }
  }

  /** The name given to the downloaded file: the sanitised stem, then "_ID.png". */
  function FileName(stem: string): (r: string)
    ensures |r| >= 7 && r[|r| - 7..] == "_ID.png"
  {
    Sanitize(stem) + "_ID.png"
  }

  /** The suffix appended to every stem contains no whitespace. */
  lemma SuffixIsClean()
    ensures forall k :: 0 <= k < |"_ID.png"| ==> !IsWhitespace("_ID.png"[k])
  {
  }

  /** Every download name ends in "_ID.png" and contains no whitespace. */
  lemma FileNameShape(stem: string)
    ensures |FileName(stem)| >= 7 && FileName(stem)[|FileName(stem)| - 7..] == "_ID.png"
    ensures forall i :: 0 <= i < |FileName(stem)| ==> !IsWhitespace(FileName(stem)[i])
  {
    var a, b := Sanitize(stem), "_ID.png";
    var r := a + b;
    assert FileName(stem) == r;
    SuffixIsClean();
    forall i | 0 <= i < |r|
      ensures !IsWhitespace(r[i])
    {
      if i < |a| {
        assert r[i] == a[i];
      } else {
        assert r[i] == b[i - |a|];
      }
    }
  }

  /** `studentData.fullName || 'AltSchool_Student'`: the stem the app passes. */
  function DownloadStem(fullName: string): (r: string)
    ensures r != ""
    ensures fullName != "" ==> r == fullName
    ensures fullName == "" ==> r == "AltSchool_Student"
  {
    Or(fullName, "AltSchool_Student")
  }

  /** A character other than whitespace is copied, and the rest sanitised. */
  lemma SanitizeCons(c: char, t: string)
    requires !IsWhitespace(c)
    ensures Sanitize([c] + t) == [c] + Sanitize(t)
  {
    var s := [c] + t;
    assert s[0] == c && s[1..] == t;
  }

  /** A whitespace-free prefix is copied as it is. */
  lemma {:induction false} SanitizeCleanPrefix(a: string, b: string)
    requires forall i :: 0 <= i < |a| ==> !IsWhitespace(a[i])
    ensures Sanitize(a + b) == a + Sanitize(b)
    decreases |a|
  {
    if a == [] {
      assert a + b == b;
    } else {
      var c, rest := a[0], a[1..];
      assert a == [c] + rest;
      assert a + b == [c] + (rest + b);
      SanitizeCons(c, rest + b);
      SanitizeCleanPrefix(rest, b);
      assert [c] + (rest + Sanitize(b)) == a + Sanitize(b);
    }
  }

  /** A whole run of whitespace, up to the next other character or the end,
      becomes a single underscore. */
  lemma SanitizeRunPrefix(w: string, b: string)
    requires |w| > 0 && forall i :: 0 <= i < |w| ==> IsWhitespace(w[i])
    requires b == [] || !IsWhitespace(b[0])
    ensures Sanitize(w + b) == "_" + Sanitize(b)
  {
    DropWhitespaceRun(w[1..], b);
    assert (w + b)[1..] == w[1..] + b;
  }

  lemma {:induction false} DropWhitespaceRun(w: string, b: string)
    requires forall i :: 0 <= i < |w| ==> IsWhitespace(w[i])
    requires b == [] || !IsWhitespace(b[0])
    ensures DropWhitespace(w + b) == b
    decreases |w|
  {
    if w != [] {
      assert (w + b)[1..] == w[1..] + b;
      DropWhitespaceRun(w[1..], b);
    } else {
      assert w + b == b;
    }
  }

  /** A name without whitespace downloads under itself followed by "_ID.png". */
  lemma FileNameOfClean(stem: string)
    requires forall i :: 0 <= i < |stem| ==> !IsWhitespace(stem[i])
    ensures FileName(stem) == stem + "_ID.png"
  {
    SanitizeKeepsClean(stem);
  }

  /** Two words separated by one run of whitespace are joined by one underscore. */
  lemma SanitizeTwoWords(a: string, w: string, b: string)
    requires forall i :: 0 <= i < |a| ==> !IsWhitespace(a[i])
    requires |w| > 0 && forall i :: 0 <= i < |w| ==> IsWhitespace(w[i])
    requires forall i :: 0 <= i < |b| ==> !IsWhitespace(b[i])
    ensures Sanitize(a + w + b) == a + "_" + b
  {
    assert a + w + b == a + (w + b);
    SanitizeCleanPrefix(a, w + b);
    SanitizeRunThenWord(w, b);
  }

  lemma SanitizeRunThenWord(w: string, b: string)
    requires |w| > 0 && forall i :: 0 <= i < |w| ==> IsWhitespace(w[i])
    requires forall i :: 0 <= i < |b| ==> !IsWhitespace(b[i])
    ensures Sanitize(w + b) == "_" + b
  {
    SanitizeRunPrefix(w, b);
    SanitizeKeepsClean(b);
  }

  /** "Ada  Lovelace" sanitises to "Ada_Lovelace". */
  lemma SanitizeAdaLovelace()
    ensures Sanitize("Ada  Lovelace") == "Ada_Lovelace"
  {
    var a, w, b := "Ada", "  ", "Lovelace";
    assert "Ada  Lovelace" == a + w + b;
    SanitizeTwoWords(a, w, b);
    assert a + "_" + b == "Ada_Lovelace";
  }

  /** "Ada  Lovelace" downloads as "Ada_Lovelace_ID.png". */
  lemma FileNameCollapsesRun()
    ensures FileName(DownloadStem("Ada  Lovelace")) == "Ada_Lovelace_ID.png"
  {
    calc {
      FileName(DownloadStem("Ada  Lovelace"));
      FileName("Ada  Lovelace");
      Sanitize("Ada  Lovelace") + "_ID.png";
      { SanitizeAdaLovelace(); }
      "Ada_Lovelace" + "_ID.png";
      "Ada_Lovelace_ID.png";
    }
  }

  /** An empty name downloads as "AltSchool_Student_ID.png". */
  lemma FileNameFallback()
    ensures FileName(DownloadStem("")) == "AltSchool_Student_ID.png"
  {
    calc {
      FileName(DownloadStem(""));
      FileName("AltSchool_Student");
      Sanitize("AltSchool_Student") + "_ID.png";
      { FallbackStemIsClean(); }
      "AltSchool_Student" + "_ID.png";
      "AltSchool_Student_ID.png";
    }
  }

  /** The fallback stem contains no whitespace, so the sanitiser keeps it. */
  lemma FallbackStemIsClean()
    ensures Sanitize("AltSchool_Student") == "AltSchool_Student"
  {
    SanitizeKeepsClean("AltSchool_Student");
  }

  /** What the rasteriser does when it is called. */
  datatype Raster = Png(dataUrl: string) | Threw

  /** What a call of `downloadIdCard` leaves behind. */
  datatype Outcome =
    | NoTarget
    | Downloaded(fileName: string, href: string)
    | Alerted(message: string)

  const FailureMessage := "Failed to generate image. Please try again."

  /** `downloadIdCard(elementId, fileName)`: `document` is the set of element
      ids on the page. A missing element returns at once; a rasteriser that
      throws is caught and reported by an alert; otherwise a link named after
      the stem is clicked. The call itself never fails. */
  method DownloadIdCard(elementId: string, fileName: string, document: set<string>, raster: Raster)
    returns (outcome: Outcome)
    ensures elementId !in document ==> outcome == NoTarget
    ensures elementId in document && raster.Threw? ==> outcome == Alerted(FailureMessage)
    ensures elementId in document && raster.Png? ==>
      outcome == Downloaded(FileName(fileName), raster.dataUrl)
  {
    if elementId !in document {
      return NoTarget;
    }
    match raster
    case Threw =>
      outcome := Alerted(FailureMessage);
    case Png(dataUrl) =>
      outcome := Downloaded(FileName(fileName), dataUrl);
  }
}
