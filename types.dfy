/** The record, the school enumeration, the school-to-tracks catalog and the
    template names of the ID card generator. */
module Types {

  /** `T | null`, and an optional property that may be absent. */
  datatype Option<T> = None | Some(value: T)

  /** One student's card data. `profileImage` is nullable; `cohort` and
      `expiryDate` are optional properties; every other field is always a string. */
  datatype StudentData = StudentData(
    fullName: string,
    studentId: string,
    school: string,
    track: string,
    profileImage: Option<string>,
    cohort: Option<string>,
    expiryDate: Option<string>)

  /** The five schools, in declaration order. */
  datatype SchoolOption = Engineering | Product | Data | Business | Creative

  /** The string value of each enum member: what the school select shows and stores. */
  function SchoolValue(s: SchoolOption): (r: string)
    ensures |r| > 10 && r[..10] == "School of " && r[10..] == SchoolName(s)
  {
    match s
    case Engineering => "School of Engineering"
    case Product => "School of Product"
    case Data => "School of Data"
    case Business => "School of Business"
    case Creative => "School of Creative Economy"
  }

  /** The name of a school, as it reads after "School of ". */
  function SchoolName(s: SchoolOption): (r: string)
    ensures r != ""
  {
    match s
    case Engineering => "Engineering"
    case Product => "Product"
    case Data => "Data"
    case Business => "Business"
    case Creative => "Creative Economy"
  }

  /** Reads a school string back as an enum member; any other string is not a school. */
  function SchoolOf(name: string): (r: Option<SchoolOption>)
    ensures r.Some? ==> SchoolValue(r.value) == name
    ensures r.None? ==> forall s :: SchoolValue(s) != name
  {
    if name == "School of Engineering" then Some(Engineering)
    else if name == "School of Product" then Some(Product)
    else if name == "School of Data" then Some(Data)
    else if name == "School of Business" then Some(Business)
    else if name == "School of Creative Economy" then Some(Creative)
    else None
  }

  /** The catalog entry of one school. */
  function SchoolTracks(s: SchoolOption): (r: seq<string>)
    ensures |r| > 0
    ensures forall i :: 0 <= i < |r| ==> r[i] != ""
  {
    match s
    case Engineering => ["Frontend Engineering", "Backend Engineering", "Cloud Engineering", "Cybersecurity"]
    case Product => ["Product Design", "Product Management", "Product Marketing"]
    case Data => ["Data Analysis", "Data Engineering", "Data Science"]
    case Business => ["Business Analysis", "Digital Marketing"]
    case Creative => ["Content Creation", "Digital Art"]
  }

  /** `SCHOOL_TRACKS[school as SchoolOption] || []`: the catalog entry of a
      school string, and the empty list for a string that names no school. */
  function TracksFor(school: string): (r: seq<string>)
    ensures SchoolOf(school).Some? ==> r == SchoolTracks(SchoolOf(school).value)
    ensures SchoolOf(school).None? ==> r == []
    ensures |r| > 0 <==> SchoolOf(school).Some?
  {
    match SchoolOf(school)
    case Some(s) => SchoolTracks(s)
    case None => []
  }

  /** The card layouts a user can pick. */
  datatype IdTemplate = Classic | Modern | Bold

  /** The string literal of each template. */
  function TemplateName(t: IdTemplate): (r: string)
    ensures r == "classic" <==> t == Classic
    ensures r == "modern" <==> t == Modern
    ensures r == "bold" <==> t == Bold
  {
    match t
    case Classic => "classic"
    case Modern => "modern"
    case Bold => "bold"
  }

  /** Different enum members have different string values. */
  lemma SchoolValuesDistinct()
    ensures forall a: SchoolOption, b: SchoolOption :: SchoolValue(a) == SchoolValue(b) ==> a == b
  {
    forall a: SchoolOption, b: SchoolOption | SchoolValue(a) == SchoolValue(b)
      ensures a == b
    {
      var r := SchoolOf(SchoolValue(a));
      assert r == Some(a) by { SchoolOfValue(a); }
      assert r == Some(b) by { SchoolOfValue(b); }
    }
  }

  /** Reading a school's own string value gives that school back. */
  lemma SchoolOfValue(s: SchoolOption)
    ensures SchoolOf(SchoolValue(s)) == Some(s)
  {
    match s
    case Engineering =>
    case Product =>
    case Data =>
    case Business =>
    case Creative =>
  }

  /** No track name repeats within one school's list. */
  lemma TracksDistinct(s: SchoolOption)
    ensures forall i, j :: 0 <= i < j < |SchoolTracks(s)| ==> SchoolTracks(s)[i] != SchoolTracks(s)[j]
  {
  }

  /** The lists of two different schools share no track name. */
  lemma TracksDisjoint(a: SchoolOption, b: SchoolOption)
    requires a != b
    ensures forall t :: t in SchoolTracks(a) ==> t !in SchoolTracks(b)
  {
  }

  /** The first entries that the form falls back to. */
  lemma FirstTracks()
    ensures SchoolTracks(Engineering)[0] == "Frontend Engineering"
    ensures SchoolTracks(Data)[0] == "Data Analysis"
  {
  }

  /** There are exactly three templates, and their names are distinct. */
  lemma TemplatesAreThree(t: IdTemplate)
    ensures t == Classic || t == Modern || t == Bold
    ensures forall a: IdTemplate, b: IdTemplate :: TemplateName(a) == TemplateName(b) ==> a == b
  {
  }
}
