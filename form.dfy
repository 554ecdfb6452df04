/** The form controller: the rules by which one edit, a school change, a
    track-mode toggle or a photo upload produces the next record. The pure
    functions say what each handler computes; the class GeneratorForm holds the
    record and the component's own state and runs the handlers step by step. */
module Form {
  import opened Types
  import opened JsText
  import opened Constants

  /** The `name` attribute of each input or select of the form. */
  datatype Field = FullName | StudentId | Cohort | ExpiryDate | School | Track

  /** The value a field holds: the optional ones may be absent. */
  function FieldValue(d: StudentData, f: Field): Option<string>
  {
    match f
    case FullName => Some(d.fullName)
    case StudentId => Some(d.studentId)
    case Cohort => d.cohort
    case ExpiryDate => d.expiryDate
    case School => Some(d.school)
    case Track => Some(d.track)
  }

  /** `{ ...data, [name]: value }`. */
  function WithField(d: StudentData, f: Field, v: string): (r: StudentData)
    ensures FieldValue(r, f) == Some(v)
    ensures forall g :: g != f ==> FieldValue(r, g) == FieldValue(d, g)
    ensures r.profileImage == d.profileImage
  {
    match f
    case FullName => d.(fullName := v)
    case StudentId => d.(studentId := v)
    case Cohort => d.(cohort := Some(v))
    case ExpiryDate => d.(expiryDate := Some(v))
    case School => d.(school := v)
    case Track => d.(track := v)
  }

  /** The expiry a cohort edit derives: `Dec <year + 1>` for exactly four
      digits, and nothing for any other value. */
  function DerivedExpiry(cohort: string): (r: Option<string>)
    ensures r.Some? <==> IsFourDigits(cohort)
  {
    if IsFourDigits(cohort) then Some(ExpiryLabel(ParseDigits(cohort))) else None
  }

  /** The record `handleInputChange` passes to `onChange`: the edited field
      holds the value, a four-digit cohort also sets the expiry to December of
      the following year, and nothing else changes. */
  function InputChange(d: StudentData, f: Field, v: string): (r: StudentData)
    ensures FieldValue(r, f) == Some(v)
    ensures forall g :: g != f && !(f == Cohort && g == ExpiryDate) ==> FieldValue(r, g) == FieldValue(d, g)
    ensures r.profileImage == d.profileImage
    ensures f == Cohort && IsFourDigits(v) ==> r.expiryDate == Some(ExpiryLabel(ParseDigits(v)))
    ensures f == Cohort && !IsFourDigits(v) ==> r.expiryDate == d.expiryDate
  {
    var n := WithField(d, f, v);
    if f == Cohort && DerivedExpiry(v).Some? then n.(expiryDate := DerivedExpiry(v)) else n
  }

  /** The record the school effect leaves: in list mode a track missing from a
      non-empty catalog entry is replaced by the entry's first track. */
  function SettleSchool(d: StudentData, custom: bool): (r: StudentData)
    ensures r == d.(track := r.track)
    ensures custom || SchoolOf(d.school).None? || d.track in TracksFor(d.school) ==> r == d
    ensures !custom && SchoolOf(d.school).Some? ==> r.track in TracksFor(d.school)
  {
    var tracks := TracksFor(d.school);
    if !custom && d.track !in tracks && |tracks| > 0 then d.(track := tracks[0]) else d
  }

  /** An edit followed by the school effect, which React runs when the edit
      changed `school`. */
  function AfterEdit(d: StudentData, custom: bool, f: Field, v: string): (r: StudentData)
    ensures r == InputChange(d, f, v).(track := r.track)
    ensures f != School ==> r == InputChange(d, f, v)
    ensures f == School && v != d.school && !custom && SchoolOf(v).Some? ==> r.track in TracksFor(v)
  {
    var n := InputChange(d, f, v);
    if n.school != d.school then SettleSchool(n, custom) else n
  }

  /** The track `toggleTrackMode` writes, given the mode before the toggle. */
  function ToggledTrack(d: StudentData, wasCustom: bool): (t: string)
    ensures !wasCustom ==> t == ""
    ensures wasCustom && TracksFor(d.school) != [] ==> t == TracksFor(d.school)[0]
    ensures wasCustom && TracksFor(d.school) == [] ==> t == ""
  {
    var tracks := TracksFor(d.school);
    if !wasCustom then "" else if |tracks| > 0 then tracks[0] else ""
  }

  /** In list mode with a known school, the track shown is one of the school's tracks. */
  predicate ListModeConsistent(d: StudentData, custom: bool)
  {
    !custom && TracksFor(d.school) != [] ==> d.track in TracksFor(d.school)
  }

  // ---- Properties of the rules -------------------------------------------

  /** A cohort of exactly four digits sets the expiry to December of the following year. */
  lemma CohortFourDigitsSetsExpiry(d: StudentData, v: string)
    requires IsFourDigits(v)
    ensures InputChange(d, Cohort, v).expiryDate == Some("Dec " + DecimalString(ParseDigits(v) + 1))
  {
  }

  /** Worked cases of the cohort rule: "2025" gives "Dec 2026", and leading
      zeros are dropped ("0024" gives "Dec 25"). */
  lemma CohortExamples(d: StudentData)
    ensures InputChange(d, Cohort, "2025").expiryDate == Some("Dec 2026")
    ensures InputChange(d, Cohort, "0024").expiryDate == Some("Dec 25")
  {
    assert IsFourDigits("2025") && IsFourDigits("0024");
    ParseFourDigits("2025");
    ParseFourDigits("0024");
    assert ExpiryLabel(2025) == "Dec 2026" by {
      assert DecimalString(2026) == "2026";
    }
    assert ExpiryLabel(24) == "Dec 25" by {
      assert DecimalString(25) == "25";
    }
  }

  /** Values that are not exactly four digits change nothing: "24", "20255", "Cohort". */
  lemma CohortNonYearExamples(d: StudentData)
    ensures InputChange(d, Cohort, "24").expiryDate == d.expiryDate
    ensures InputChange(d, Cohort, "20255").expiryDate == d.expiryDate
    ensures InputChange(d, Cohort, "Cohort").expiryDate == d.expiryDate
  {
    assert !IsFourDigits("Cohort");
  }

  /** The default cohort is four digits for years 1000 to 9999, and the cohort
      rule applied to it gives back exactly the default expiry. */
  lemma DefaultExpiryFollowsCohortRule(d: StudentData, year: nat)
    requires 1000 <= year <= 9999
    ensures IsFourDigits(InitialStudentData(year).cohort.value)
    ensures InputChange(d, Cohort, InitialStudentData(year).cohort.value).expiryDate
         == InitialStudentData(year).expiryDate
  {
    DecimalStringFourDigits(year);
    ParseDecimalString(year);
  }

  /** In list mode, a school change to a known school keeps a track that
      belongs to the new list, resets any other track to the list's first
      entry, and afterwards the track is always in that list; nothing else changes. */
  lemma SettleSchoolListMode(d: StudentData)
    requires SchoolOf(d.school).Some?
    ensures d.track in TracksFor(d.school) ==> SettleSchool(d, false) == d
    ensures d.track !in TracksFor(d.school) ==>
      SettleSchool(d, false) == d.(track := TracksFor(d.school)[0])
    ensures SettleSchool(d, false).track in TracksFor(d.school)
  {
  }

  /** Changing from Engineering to Data with "Frontend Engineering" selected
      resets the track to "Data Analysis"; in custom mode the track stays. */
  lemma SchoolChangeExample(d: StudentData)
    requires d.school == SchoolValue(Engineering) && d.track == "Frontend Engineering"
    ensures AfterEdit(d, false, School, SchoolValue(Data)).track == "Data Analysis"
    ensures AfterEdit(d, true, School, SchoolValue(Data)).track == "Frontend Engineering"
  {
    SchoolOfValue(Data);
  }

  /** Every edit the form can make keeps the list-mode track consistent, given
      that in list mode the track select offers only the school's own tracks. */
  lemma EditKeepsListModeConsistent(d: StudentData, custom: bool, f: Field, v: string)
    requires ListModeConsistent(d, custom)
    requires f == Track && !custom ==> v in TracksFor(d.school)
    ensures ListModeConsistent(AfterEdit(d, custom, f, v), custom)
  {
  }

  /** The school effect establishes list-mode consistency. */
  lemma SettleSchoolConsistent(d: StudentData, custom: bool)
    ensures ListModeConsistent(SettleSchool(d, custom), custom)
  {
  }

  /** Leaving custom mode restores list-mode consistency. */
  lemma ToggleOffConsistent(d: StudentData)
    ensures ListModeConsistent(d.(track := ToggledTrack(d, true)), false)
  {
  }

  /** Toggling on clears the track; toggling off with Engineering selected
      restores "Frontend Engineering". */
  lemma ToggleExample(d: StudentData)
    requires d.school == SchoolValue(Engineering)
    ensures ToggledTrack(d, false) == ""
    ensures ToggledTrack(d, true) == "Frontend Engineering"
  {
    SchoolOfValue(Engineering);
  }

  /** The form component: the record it edits (held by the app and passed in
      as `data`, written back through `onChange`), the track mode and the
      track list the select shows. */
  class GeneratorForm {
    var data: StudentData
    var customTrackMode: bool
    var availableTracks: seq<string>

    /** The state on mount, before the school effect first runs. */
    constructor (initial: StudentData)
      ensures data == initial && !customTrackMode && availableTracks == []
    {
      data := initial;
      customTrackMode := false;
      availableTracks := [];
    }

    /** The form after the school effect has run for the current school. */
    ghost predicate Settled()
      reads this
    {
      availableTracks == TracksFor(data.school) && ListModeConsistent(data, customTrackMode)
    }

    /** The effect that runs on mount and whenever `data.school` changes. */
    method SchoolEffect()
      modifies this
      ensures availableTracks == TracksFor(old(data).school)
      ensures data == SettleSchool(old(data), customTrackMode)
      ensures customTrackMode == old(customTrackMode)
      ensures Settled()
    {
      var tracks := TracksFor(data.school);
      availableTracks := tracks;
      if !customTrackMode && data.track !in tracks && |tracks| > 0 {
        data := data.(track := tracks[0]);
      }
    }

    /** `handleInputChange`: copy the record with the edited field, derive the
      expiry from a four-digit cohort, and hand the copy back. */
    method HandleInputChange(f: Field, v: string)
      modifies this
      ensures data == InputChange(old(data), f, v)
      ensures customTrackMode == old(customTrackMode) && availableTracks == old(availableTracks)
    {
      var newData := WithField(data, f, v);
      if f == Cohort {
        if IsFourDigits(v) {
          var year := ParseDigits(v);
          newData := newData.(expiryDate := Some(ExpiryLabel(year)));
        }
      }
      data := newData;
    }

    /** One edit as the user sees it: the handler, then the school effect when
      the edit changed the school. */
    method Edit(f: Field, v: string)
      requires Settled()
      requires f == Track && !customTrackMode ==> v in availableTracks
      modifies this
      ensures data == AfterEdit(old(data), customTrackMode, f, v)
      ensures customTrackMode == old(customTrackMode)
      ensures Settled()
    {
      var before := data.school;
      HandleInputChange(f, v);
      if data.school != before {
        SchoolEffect();
      } else {
        EditKeepsListModeConsistent(old(data), customTrackMode, f, v);
      }
    }

    /** `handleImageUpload`: `objectUrl` is the reference `URL.createObjectURL`
      returns for the chosen file; with no file nothing changes. */
    method HandleImageUpload(fileChosen: bool, objectUrl: string)
      modifies this
      ensures fileChosen ==> data == old(data).(profileImage := Some(objectUrl))
      ensures !fileChosen ==> data == old(data)
      ensures customTrackMode == old(customTrackMode) && availableTracks == old(availableTracks)
    {
      if fileChosen {
        data := data.(profileImage := Some(objectUrl));
      }
    }

    /** `handleRemoveImage`: the photo reference is cleared. */
    method HandleRemoveImage()
      modifies this
      ensures data == old(data).(profileImage := None)
      ensures customTrackMode == old(customTrackMode) && availableTracks == old(availableTracks)
    {
      data := data.(profileImage := None);
    }

    /** `toggleTrackMode`: flip the mode; entering custom mode clears the
      track, leaving it restores the school's first track. */
    method ToggleTrackMode()
      modifies this
      ensures customTrackMode == !old(customTrackMode)
      ensures data == old(data).(track := ToggledTrack(old(data), old(customTrackMode)))
      ensures availableTracks == old(availableTracks)
      ensures old(Settled()) ==> Settled()
    {
      var wasCustom := customTrackMode;
      customTrackMode := !customTrackMode;
      if !wasCustom {
        data := data.(track := "");
      } else {
        var tracks := TracksFor(data.school);
        data := data.(track := if |tracks| > 0 then tracks[0] else "");
      }
    }
  }
}
