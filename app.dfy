/** The app shell: the record seeded from the page's query string, the share
    link that carries the school settings (and never the student's identity),
    and the top-level state the shell owns. */
module App {
  import opened Types
  import opened JsText
  import opened Constants
  import opened Download
  import Form

  /** A query string, as the map from each parameter name to its value. */
  type Query = map<string, string>

  /** `params.get(key)`: the value, or null when the parameter is absent. */
  function Param(q: Query, key: string): (r: Option<string>)
    ensures r.Some? <==> key in q
    ensures r.Some? ==> r.value == q[key]
  {
    if key in q then Some(q[key]) else None
  }

  /** The only parameters a share link can carry. */
  const SharedKeys: set<string> := {"school", "cohort", "expiryDate", "track"}

  /** The lazy initial state: each of school, track, cohort and expiry comes
      from its parameter when that is present and non-empty, and from
      `fallback` otherwise; every other field comes from `fallback`. The
      school is not checked against the catalog. */
  function Decode(q: Query, fallback: StudentData): (r: StudentData)
    ensures r.school == (if "school" in q && q["school"] != "" then q["school"] else fallback.school)
    ensures r.track == (if "track" in q && q["track"] != "" then q["track"] else fallback.track)
    ensures r.cohort == (if "cohort" in q && q["cohort"] != "" then Some(q["cohort"]) else fallback.cohort)
    ensures r.expiryDate ==
      (if "expiryDate" in q && q["expiryDate"] != "" then Some(q["expiryDate"]) else fallback.expiryDate)
    ensures r.fullName == fallback.fullName && r.studentId == fallback.studentId
    ensures r.profileImage == fallback.profileImage
  {
    fallback.(
      school := OrOpt(Param(q, "school"), fallback.school),
      track := OrOpt(Param(q, "track"), fallback.track),
      cohort := if Truthy(Param(q, "cohort")) then Param(q, "cohort") else fallback.cohort,
      expiryDate := if Truthy(Param(q, "expiryDate")) then Param(q, "expiryDate") else fallback.expiryDate)
  }

  /** The record the app starts with: the defaults when there is no window,
      and the defaults overlaid with the page's query otherwise. */
  function InitialState(window: Option<Query>, year: nat): (r: StudentData)
    ensures window.None? ==> r == InitialStudentData(year)
    ensures r.fullName == "" && r.studentId == "" && r.profileImage == None
    ensures r.school != "" && r.track != "" && Truthy(r.cohort) && Truthy(r.expiryDate)
  {
    match window
    case None => InitialStudentData(year)
    case Some(q) => Decode(q, InitialStudentData(year))
  }

  /** The query a share link carries: the school always, and cohort, expiry
      and track each only when non-empty. */
  function Encode(d: StudentData): (q: Query)
    ensures q.Keys <= SharedKeys
    ensures "school" in q && q["school"] == d.school
    ensures "cohort" in q <==> Truthy(d.cohort)
    ensures "expiryDate" in q <==> Truthy(d.expiryDate)
    ensures "track" in q <==> d.track != ""
    ensures "cohort" in q ==> q["cohort"] == d.cohort.value
    ensures "expiryDate" in q ==> q["expiryDate"] == d.expiryDate.value
    ensures "track" in q ==> q["track"] == d.track
  {
    var withSchool := map["school" := d.school];
    var withCohort := if Truthy(d.cohort) then withSchool["cohort" := d.cohort.value] else withSchool;
    var withExpiry := if Truthy(d.expiryDate) then withCohort["expiryDate" := d.expiryDate.value] else withCohort;
    if d.track != "" then withExpiry["track" := d.track] else withExpiry
  }

  // ---- Properties of the link codec --------------------------------------

  /** Without a window the app starts from the defaults. */
  lemma NoWindowGivesDefaults(year: nat)
    ensures InitialState(None, year) == InitialStudentData(year)
  {
  }

  /** The name, ID and photo never come from the URL: any two queries give the same ones. */
  lemma DecodeIgnoresIdentity(q1: Query, q2: Query, year: nat)
    ensures InitialState(Some(q1), year).fullName == InitialState(Some(q2), year).fullName == ""
    ensures InitialState(Some(q1), year).studentId == InitialState(Some(q2), year).studentId == ""
    ensures InitialState(Some(q1), year).profileImage == InitialState(Some(q2), year).profileImage == None
  {
  }

  /** Parameters other than the four shared ones are ignored. */
  lemma DecodeIgnoresOtherKeys(q: Query, extra: Query, fallback: StudentData)
    requires extra.Keys !! SharedKeys
    ensures Decode(q + extra, fallback) == Decode(q, fallback)
  {
    assert forall k :: k in SharedKeys ==> Param(q + extra, k) == Param(q, k);
  }

  /** Any non-empty school string passes through, whether or not it names a catalog school. */
  lemma DecodeAcceptsUnknownSchool(s: string, year: nat)
    requires s != "" && SchoolOf(s).None?
    ensures InitialState(Some(map["school" := s]), year).school == s
    ensures TracksFor(InitialState(Some(map["school" := s]), year).school) == []
  {
  }

  /** The share link never carries the student's name, ID or photo. */
  lemma EncodeOmitsIdentity(d: StudentData)
    ensures "fullName" !in Encode(d) && "studentId" !in Encode(d) && "profileImage" !in Encode(d)
  {
  }

  /** The link depends on the four shared fields only. */
  lemma EncodeIgnoresIdentity(d: StudentData, name: string, id: string, photo: Option<string>)
    ensures Encode(d.(fullName := name, studentId := id, profileImage := photo)) == Encode(d)
  {
  }

  /** Opening a shared link restores each shared field that was non-empty;
      empty ones come back as the recipient's defaults, and so do the name,
      ID and photo. */
  lemma RoundTrip(r: StudentData, fallback: StudentData)
    ensures Decode(Encode(r), fallback).fullName == fallback.fullName
    ensures Decode(Encode(r), fallback).studentId == fallback.studentId
    ensures Decode(Encode(r), fallback).profileImage == fallback.profileImage
    ensures Decode(Encode(r), fallback).school == (if r.school != "" then r.school else fallback.school)
    ensures Decode(Encode(r), fallback).track == (if r.track != "" then r.track else fallback.track)
    ensures Decode(Encode(r), fallback).cohort == (if Truthy(r.cohort) then r.cohort else fallback.cohort)
    ensures Decode(Encode(r), fallback).expiryDate == (if Truthy(r.expiryDate) then r.expiryDate else fallback.expiryDate)
  {
  }

  /** A record whose identity fields are the defaults and whose four shared
      fields are non-empty comes back exactly. */
  lemma RoundTripExact(r: StudentData, year: nat)
    requires r.fullName == "" && r.studentId == "" && r.profileImage == None
    requires r.school != "" && r.track != "" && Truthy(r.cohort) && Truthy(r.expiryDate)
    ensures InitialState(Some(Encode(r)), year) == r
  {
    RoundTrip(r, InitialStudentData(year));
  }

  /** A record whose track was cleared (custom mode just entered) does not
      come back exactly: the recipient gets the default track. */
  lemma RoundTripDropsEmptyTrack(r: StudentData, year: nat)
    requires r.track == ""
    ensures InitialState(Some(Encode(r)), year).track == "Frontend Engineering"
    ensures InitialState(Some(Encode(r)), year) != r
  {
    RoundTrip(r, InitialStudentData(year));
  }

  /** A custom track carried by a link for a catalog school does not survive
      the form's mount: the form starts in list mode, and its school effect
      replaces the track by the school's first one. */
  lemma MountResetsSharedCustomTrack(r: StudentData, year: nat)
    requires SchoolOf(r.school).Some? && r.track != "" && r.track !in TracksFor(r.school)
    ensures InitialState(Some(Encode(r)), year).track == r.track
    ensures Form.SettleSchool(InitialState(Some(Encode(r)), year), false).track == TracksFor(r.school)[0]
  {
    RoundTrip(r, InitialStudentData(year));
  }

  /** The app's own state. */
  class AppState {
    var studentData: StudentData
    var template: IdTemplate
    var isGenerating: bool
    var isCopied: bool

    /** The state on load; `year` is the current year. */
    constructor (window: Option<Query>, year: nat)
      ensures studentData == InitialState(window, year)
      ensures template == Classic && !isGenerating && !isCopied
    {
      studentData := InitialState(window, year);
      template := Classic;
      isGenerating := false;
      isCopied := false;
    }

    /** `setStudentData`, the form's `onChange`. */
    method SetStudentData(d: StudentData)
      modifies this
      ensures studentData == d
      ensures template == old(template) && isGenerating == old(isGenerating) && isCopied == old(isCopied)
    {
      studentData := d;
    }

    /** `setTemplate`, from the template selector. */
    method SetTemplate(t: IdTemplate)
      modifies this
      ensures template == t
      ensures studentData == old(studentData) && isGenerating == old(isGenerating) && isCopied == old(isCopied)
    {
      template := t;
    }

    /** `handleShare`: `current` is the query of `new URL(window.location.href)`,
      the page's own address; it is cleared, then the shared parameters are
      set one by one, and the result is what goes to the clipboard. */
    method HandleShare(current: Query) returns (shared: Query)
      modifies this
      ensures shared == Encode(studentData)
      ensures forall k :: k in current && k !in SharedKeys ==> k !in shared
      ensures isCopied
      ensures studentData == old(studentData) && template == old(template) && isGenerating == old(isGenerating)
    {
      var search := current;
      search := map[];
      search := search["school" := studentData.school];
      if Truthy(studentData.cohort) {
        search := search["cohort" := studentData.cohort.value];
      }
      if Truthy(studentData.expiryDate) {
        search := search["expiryDate" := studentData.expiryDate.value];
      }
      if studentData.track != "" {
        search := search["track" := studentData.track];
      }
      shared := search;
      isCopied := true;
    }

    /** `handleDownload` with its delay left out: the busy flag is raised, the
      card is exported under the student's name or "AltSchool_Student", and
      the flag is lowered whatever the export's outcome. */
    method HandleDownload(document: set<string>, raster: Raster) returns (outcome: Outcome)
      modifies this
      ensures !isGenerating
      ensures "id-card-preview" !in document ==> outcome == NoTarget
      ensures "id-card-preview" in document && raster.Threw? ==> outcome == Alerted(FailureMessage)
      ensures "id-card-preview" in document && raster.Png? ==>
        outcome == Downloaded(FileName(DownloadStem(studentData.fullName)), raster.dataUrl)
      ensures studentData == old(studentData) && template == old(template) && isCopied == old(isCopied)
    {
      isGenerating := true;
      outcome := DownloadIdCard("id-card-preview", DownloadStem(studentData.fullName), document, raster);
      isGenerating := false;
    }
  }
}
