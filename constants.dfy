/** The default record and the list of schools the form offers. */
module Constants {
  import opened Types
  import opened JsText

  /** The default expiry label for a programme that starts in `year`. */
  function ExpiryLabel(year: nat): (r: string)
    ensures |r| > 4 && r[..4] == "Dec "
  {
    "Dec " + DecimalString(year + 1)
  }

  /** The label's text after "Dec " is the numeral of the following year. */
  lemma ExpiryLabelYear(year: nat)
    ensures AllDigits(ExpiryLabel(year)[4..])
    ensures ParseDigits(ExpiryLabel(year)[4..]) == year + 1
  {
    assert ExpiryLabel(year)[4..] == DecimalString(year + 1);
    ParseDecimalString(year + 1);
  }

  /** `INITIAL_STUDENT_DATA`, with the current year passed in. */
  function InitialStudentData(year: nat): (d: StudentData)
    ensures d.fullName == "" && d.studentId == "" && d.profileImage == None
    ensures SchoolOf(d.school) == Some(Engineering)
    ensures d.track in TracksFor(d.school) && d.track == TracksFor(d.school)[0]
    ensures d.cohort == Some(DecimalString(year)) && ParseDigits(d.cohort.value) == year
    ensures d.expiryDate == Some(ExpiryLabel(year))
  {
    ParseDecimalString(year);
    SchoolOfValue(Engineering);
    StudentData(
      fullName := "",
      studentId := "",
      school := SchoolValue(Engineering),
      track := "Frontend Engineering",
      profileImage := None,
      cohort := Some(DecimalString(year)),
      expiryDate := Some(ExpiryLabel(year)))
  }

  /** `Object.values(SchoolOption)`: the five string values in declaration order. */
  function Schools(): (r: seq<string>)
    ensures |r| == 5
    ensures forall i :: 0 <= i < |r| ==> SchoolOf(r[i]).Some?
    ensures forall s :: SchoolValue(s) in r
  {
    [ SchoolValue(Engineering), SchoolValue(Product), SchoolValue(Data),
      SchoolValue(Business), SchoolValue(Creative) ]
  }

  /** The select lists every school exactly once. */
  lemma SchoolsDistinct()
    ensures forall i, j :: 0 <= i < j < |Schools()| ==> Schools()[i] != Schools()[j]
  {
  }
}
