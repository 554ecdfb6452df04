/** The text each card template shows for a record: which fields appear, and
    the placeholder each one falls back to when the record leaves it empty. */
module IdCard {
  import opened Types
  import opened JsText

  /** The image shown when the record has no photo. */
  const PlaceholderImage := "https://picsum.photos/300/300"

  /** The strings one rendered card displays, per layout. */
  datatype Card =
    | ClassicCard(image: string, name: string, track: string, studentId: string,
                  cohort: string, school: string, expiry: string)
    | ModernCard(cohort: string, image: string, name: string, track: string,
                 studentId: string, school: string)
    | BoldCard(image: string, name: string, school: string, track: string,
               studentId: string, expiry: string)

  /** `data.profileImage || picsum`, shared by all three layouts. */
  function DisplayImage(d: StudentData): (r: string)
    ensures r != ""
    ensures Truthy(d.profileImage) ==> r == d.profileImage.value
    ensures !Truthy(d.profileImage) ==> r == PlaceholderImage
  {
    OrOpt(d.profileImage, PlaceholderImage)
  }

  /** The school badge of the bold layout: the first "School of " removed,
      and "School" when nothing is left. */
  function BoldSchoolLabel(school: string): (r: string)
    ensures r != ""
  {
    Or(ReplaceFirst(school, "School of ", ""), "School")
  }

  /** The classic layout: every line but the school and the expiry has a
      placeholder; the school and the expiry are shown as they are. */
  function RenderClassic(d: StudentData): (c: Card)
    ensures c.ClassicCard?
    ensures c.name != "" && c.track != "" && c.studentId != "" && c.image != "" && c.cohort != ""
    ensures d.track != "" ==> c.track == d.track
    ensures c.school == d.school
    ensures d.expiryDate.Some? ==> c.expiry == d.expiryDate.value
    ensures d.expiryDate.None? ==> c.expiry == ""
  {
    ClassicCard(
      image := DisplayImage(d),
      name := Or(d.fullName, "Student Name"),
      track := Or(d.track, "Track Name"),
      studentId := Or(d.studentId, "ALT-0000"),
      cohort := OrOpt(d.cohort, "2024"),
      school := d.school,
      expiry := Shown(d.expiryDate))
  }

  /** The modern layout: cohort first, no expiry; the school is shown as it is. */
  function RenderModern(d: StudentData): (c: Card)
    ensures c.ModernCard?
    ensures c.name != "" && c.track != "" && c.studentId != "" && c.image != "" && c.cohort != ""
    ensures d.track != "" ==> c.track == d.track
    ensures c.school == d.school
  {
    ModernCard(
      cohort := OrOpt(d.cohort, "2024"),
      image := DisplayImage(d),
      name := Or(d.fullName, "Student Name"),
      track := Or(d.track, "Track"),
      studentId := Or(d.studentId, "ALT-0000"),
      school := d.school)
  }

  /** The bold layout: no cohort; the school badge is never blank, the expiry
      is shown as it is. */
  function RenderBold(d: StudentData): (c: Card)
    ensures c.BoldCard?
    ensures c.name != "" && c.track != "" && c.studentId != "" && c.image != "" && c.school != ""
    ensures d.track != "" ==> c.track == d.track
    ensures d.expiryDate.Some? ==> c.expiry == d.expiryDate.value
    ensures d.expiryDate.None? ==> c.expiry == ""
  {
    BoldCard(
      image := DisplayImage(d),
      name := Or(d.fullName, "Student Name"),
      school := BoldSchoolLabel(d.school),
      track := Or(d.track, "Track Name"),
      studentId := Or(d.studentId, "ALT-0000"),
      expiry := Shown(d.expiryDate))
  }

  /** The layout the `switch` picks: an omitted prop defaults to 'classic',
      and every value other than 'modern' and 'bold' falls to classic. */
  function SelectTemplate(template: Option<string>): (t: IdTemplate)
    ensures t == Modern <==> template == Some("modern")
    ensures t == Bold <==> template == Some("bold")
  {
    var name := if template.Some? then template.value else "classic";
    if name == "modern" then Modern else if name == "bold" then Bold else Classic
  }

  /** The `IDCard` component. */
  function Render(d: StudentData, template: Option<string>): (c: Card)
    ensures c.ModernCard? <==> template == Some("modern")
    ensures c.BoldCard? <==> template == Some("bold")
    ensures c.ClassicCard? ==> c == RenderClassic(d)
    ensures c.ModernCard? ==> c == RenderModern(d)
    ensures c.BoldCard? ==> c == RenderBold(d)
    ensures c.name != "" && c.track != "" && c.studentId != "" && c.image != ""
  {
    match SelectTemplate(template)
    case Classic => RenderClassic(d)
    case Modern => RenderModern(d)
    case Bold => RenderBold(d)
  }

  // ---- Properties of the projection --------------------------------------

  /** Each template's own name selects that template. */
  lemma SelectTemplateByName(t: IdTemplate)
    ensures SelectTemplate(Some(TemplateName(t))) == t
  {
  }

  /** 'classic', an omitted template and any unknown name all render the classic layout. */
  lemma ClassicIsDefault(d: StudentData, other: string)
    requires other != "modern" && other != "bold"
    ensures Render(d, None).ClassicCard?
    ensures Render(d, Some("classic")).ClassicCard?
    ensures Render(d, Some(other)) == RenderClassic(d)
  {
  }

  /** All three layouts show the name or "Student Name", the ID or
      "ALT-0000", and the same image. */
  lemma SharedFallbacks(d: StudentData, template: Option<string>)
    ensures Render(d, template).name == (if d.fullName != "" then d.fullName else "Student Name")
    ensures Render(d, template).studentId == (if d.studentId != "" then d.studentId else "ALT-0000")
    ensures Render(d, template).image == (if Truthy(d.profileImage) then d.profileImage.value else PlaceholderImage)
  {
  }

  /** The track placeholder is "Track Name" in classic and bold, "Track" in modern. */
  lemma TrackPlaceholders(d: StudentData)
    requires d.track == ""
    ensures RenderClassic(d).track == "Track Name"
    ensures RenderModern(d).track == "Track"
    ensures RenderBold(d).track == "Track Name"
  {
  }

  /** Classic and modern show the cohort or "2024"; bold has no cohort. Classic
      and bold show the expiry as it is, possibly blank; modern has no expiry. */
  lemma CohortAndExpiry(d: StudentData)
    ensures RenderClassic(d).cohort == RenderModern(d).cohort == (if Truthy(d.cohort) then d.cohort.value else "2024")
    ensures RenderClassic(d).expiry == RenderBold(d).expiry
    ensures d.expiryDate.Some? ==> RenderClassic(d).expiry == d.expiryDate.value
    ensures d.expiryDate.None? ==> RenderClassic(d).expiry == ""
    ensures !RenderBold(d).ClassicCard? && !RenderBold(d).ModernCard?
    ensures !RenderModern(d).ClassicCard? && !RenderModern(d).BoldCard?
  {
  }

  /** The bold badge drops a leading "School of ", and shows "School" when
      nothing else is left. */
  lemma BoldSchoolOfPrefix(rest: string)
    ensures BoldSchoolLabel("School of " + rest) == (if rest != "" then rest else "School")
  {
    var s := "School of " + rest;
    assert s[..10] == "School of ";
    ReplaceFirstAtStart(s, "School of ", "");
    assert s[10..] == rest;
  }

  /** The bold badge of each catalog school is the part after "School of ". */
  lemma BoldSchoolLabels(s: SchoolOption)
    ensures BoldSchoolLabel(SchoolValue(s)) == SchoolName(s)
  {
    BoldSchoolOfPrefix(SchoolName(s));
  }

  /** The bold badge removes only the first "School of ", wherever it is. */
  lemma BoldSchoolFirstOccurrence(school: string, i: nat)
    requires OccursAt(school, "School of ", i)
    requires forall j :: 0 <= j < i ==> !OccursAt(school, "School of ", j)
    ensures BoldSchoolLabel(school) == Or(school[..i] + school[i + 10..], "School")
  {
    assert IndexOf(school, "School of ") == Some(i);
  }

  /** A school in which "School of " does not occur is shown as it is, or as
      "School" when it is empty. */
  lemma BoldSchoolNoPrefix(school: string)
    requires forall j :: 0 <= j <= |school| ==> !OccursAt(school, "School of ", j)
    ensures BoldSchoolLabel(school) == (if school != "" then school else "School")
  {
    ReplaceFirstAbsent(school, "School of ", "");
  }

  /** The name, track, ID and image lines are never blank, in any layout. */
  lemma NeverBlank(d: StudentData, template: Option<string>)
    ensures Render(d, template).name != "" && Render(d, template).track != ""
    ensures Render(d, template).studentId != "" && Render(d, template).image != ""
  {
  }
}
