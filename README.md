# AltSchool ID card generator — a Dafny model

The generator is a small web app. A user fills in a form about one student
(name, student ID, school, track, cohort, expiry, photo), sees the data on one
of three card templates, and downloads the card as a PNG. An administrator can
also copy a share link that pre-fills the school settings for students.

This project models the parts of the app whose behaviour can be stated
exactly, one Dafny module per source file, plus `JsText` for the JavaScript
built-ins those files use:

- `Types` (types.ts): the `StudentData` record, the five-member
  `SchoolOption` enum with its string values, the school-to-tracks catalog,
  the `TracksFor` lookup (empty for a string that names no school) and the
  three template names.
- `Constants` (constants.ts): the default record, with the current year
  passed in, and the school list `Object.values(SchoolOption)`.
- `JsText`: the JavaScript operations the app relies on. These are `||` on
  strings and optional strings, a number in a template literal, `parseInt`
  on a string of digits, `String.prototype.replace` with a string pattern (first
  match only) and a replacement without `$` patterns, `/^\d{4}$/`, and `\s`
  written out as its exact code-point set.
- `Form` (components/GeneratorForm.tsx): pure functions for each handler's
  result, with lemmas about them. The class `GeneratorForm` holds `data`,
  `customTrackMode` and `availableTracks`, and has one method per handler.
  The method `Edit` is one edit followed by the school effect, which React
  runs when the edit changed the school.
- `App` (App.tsx): the link decoder (`Decode`, `InitialState`), the encoder
  (`Encode`), and the class `AppState` holding the shell's state. `AppState`
  has the step-by-step `HandleShare` and a sequential `HandleDownload`.
- `Download` (utils/download.ts): the file-name sanitiser. It is proved equal
  to an independent reference (`Scan`) that works one character at a time.
  Also here: `downloadIdCard`'s three outcomes (no target, download, alert),
  with the rasteriser's result passed in as a parameter.
- `IdCard` (components/IDCard.tsx): the strings each template displays, with
  per-template placeholders, the bold template's school badge and the
  template `switch`.

Modelling choices:
- `profileImage` (nullable), `cohort` and `expiryDate` (optional) are
  `Option<string>`. JavaScript truthiness is "present and non-empty".
- The URL query is a `map<string, string>`.
- The current year is a `nat` parameter.
- The object URL of an uploaded photo is a string parameter.
- The page's element ids are a `set<string>`.

Behaviour of the code worth knowing, each stated by a lemma:
- Decoding an encoded record gives it back only when the name, ID and photo
  are the defaults and all four shared fields are non-empty. An empty track,
  cohort or expiry is not written. An empty school is written, but read back
  as the default. `App.RoundTrip` states what does come back, and
  `App.RoundTripDropsEmptyTrack` shows a record with an empty track that does
  not come back.
- Some card fields can render blank. Classic and bold show the expiry as it
  is, blank when it is absent. Classic and modern show the school as it is
  (`IdCard.CohortAndExpiry`, `IdCard.RenderClassic`, `IdCard.RenderModern`).
- The object URL of a photo is never revoked, neither on remove nor on
  replace, so the model has no release step.
- A share link may carry a custom track for a catalog school. The form mounts
  in list mode, and its school effect replaces that track with the school's
  first track (`App.MountResetsSharedCustomTrack`).

## Model

| member | source | states |
|---|---|---|
| `Types.SchoolOf` | types.ts:11-17 | a string reads as a school exactly when it is one of the five enum values, and then as the member with that value |
| `Types.SchoolOfValue` | types.ts:11-17 | each school's own value reads back as that school |
| `Types.SchoolValuesDistinct` | types.ts:11-17 | the five enum values are pairwise distinct |
| `Types.TracksFor` | components/GeneratorForm.tsx:26 | the lookup gives the catalog entry for a school's value and [] for any other string; it is non-empty exactly for the five schools |
| `Types.SchoolValue` | types.ts:11-17 | each enum value is "School of " followed by the school's name |
| `Types.SchoolName` | types.ts:11-17 | the part of each enum value after "School of " is non-empty |
| `Types.SchoolTracks` | types.ts:19-25 | every school has at least one track, and no track name is empty |
| `Types.TracksDistinct` | types.ts:20-24 | no track repeats within a school's list |
| `Types.TracksDisjoint` | types.ts:20-24 | the lists of two different schools share no track |
| `Types.FirstTracks` | types.ts:20-22 | Engineering's first track is "Frontend Engineering"; Data's is "Data Analysis" |
| `Types.TemplateName` | types.ts:27 | each template has its own literal, and the literals "classic", "modern" and "bold" name exactly Classic, Modern and Bold |
| `Types.TemplatesAreThree` | types.ts:27 | a template is classic, modern or bold, and the three names differ |
| `Constants.ExpiryLabel` | constants.ts:12 | the label starts with "Dec " |
| `Constants.ExpiryLabelYear` | constants.ts:12 | the text after "Dec " is a numeral that parses to the following year |
| `Constants.InitialStudentData` | constants.ts:5-13 | the default has empty name and ID and no photo; its school is Engineering; its track is that school's first catalog track; its cohort is the year's numeral; its expiry is "Dec " + (year+1) |
| `Constants.Schools` | constants.ts:15 | the list has five entries, each a school value, and every school value is in it |
| `Constants.SchoolsDistinct` | constants.ts:15 | no school appears twice in the list |
| `JsText.Or` | components/IDCard.tsx:61 | `s || fallback` is `s` when it is non-empty and the fallback otherwise, so a non-empty fallback never gives "" |
| `JsText.Truthy` | App.tsx:49-52 | null or absent and "" are falsy; a truthy string is present and non-empty |
| `JsText.OrOpt` | components/IDCard.tsx:12 | `o || fallback` on an optional string is its value when truthy, the fallback otherwise, and never "" for a non-empty fallback |
| `JsText.Shown` | components/IDCard.tsx:92 | `{o}` shows the value when present, and is blank exactly when the value is falsy |
| `JsText.DecimalString` | constants.ts:11 | a number's numeral is non-empty, all digits, and has no leading zero |
| `JsText.ParseDigits` | components/GeneratorForm.tsx:42 | a string of k digits parses to a number below ten to the k |
| `JsText.ParseFourDigits` | components/GeneratorForm.tsx:42 | a four-digit string parses to its positional decimal value |
| `JsText.IsFourDigits` | components/GeneratorForm.tsx:41 | a string matching /^\d{4}$/ is all digits and parses to a number below 10000 |
| `JsText.ParseDecimalString` | components/GeneratorForm.tsx:42 | parsing a number's numeral gives the number back |
| `JsText.DecimalStringFourDigits` | components/GeneratorForm.tsx:41 | a numeral is exactly four digits if and only if the number is 1000 to 9999 |
| `JsText.IndexFrom` | components/IDCard.tsx:206 | the search from an index returns an occurrence with none before it, or none when the pattern does not occur |
| `JsText.IndexOf` | components/IDCard.tsx:206 | the result is the first occurrence of the pattern, or none when there is none |
| `JsText.ReplaceFirst` | components/IDCard.tsx:206 | replace with a string pattern keeps the text before the first occurrence, trades the pattern's length for the replacement's, and leaves a string without the pattern unchanged |
| `JsText.ReplaceFirstAbsent` | components/IDCard.tsx:206 | replace leaves a string without the pattern unchanged |
| `JsText.ReplaceFirstAtStart` | components/IDCard.tsx:206 | replace on a string starting with the pattern replaces exactly that prefix |
| `JsText.IsWhitespace` | utils/download.ts:15 | space, tab, line feed and carriage return are in `\s`; neither `_` nor a digit is |
| `Form.WithField` | components/GeneratorForm.tsx:37 | the spread sets the named field to the value and leaves every other field and the photo unchanged |
| `Form.DerivedExpiry` | components/GeneratorForm.tsx:40-45 | a cohort derives an expiry if and only if it is exactly four digits |
| `Form.InputChange` | components/GeneratorForm.tsx:35-49 | the edited field holds the value; a four-digit cohort sets the expiry to "Dec " + (year + 1), any other cohort keeps it; every other field and the photo are unchanged |
| `Form.SettleSchool` | components/GeneratorForm.tsx:25-33 | only the track can change; custom mode, an unknown school or a listed track leave the record as it is; in list mode with a catalog school the track ends in the school's list |
| `Form.AfterEdit` | components/GeneratorForm.tsx:25-49 | the result is the edit with at most the track changed; an edit of any field but the school is the edit alone; a list-mode change to a catalog school ends with a track from its list |
| `Form.ToggledTrack` | components/GeneratorForm.tsx:64-72 | entering custom mode clears the track; leaving it gives the school's first track, or "" for an unknown school |
| `Form.CohortFourDigitsSetsExpiry` | components/GeneratorForm.tsx:40-45 | a four-digit cohort sets the expiry to "Dec " + (parsed year + 1) |
| `Form.CohortExamples` | components/GeneratorForm.tsx:40-45 | "2025" gives "Dec 2026" and "0024" gives "Dec 25" |
| `Form.CohortNonYearExamples` | components/GeneratorForm.tsx:41 | "24", "20255" and "Cohort" keep the expiry |
| `Form.DefaultExpiryFollowsCohortRule` | constants.ts:11-12 | for years 1000 to 9999 the cohort rule applied to the default cohort gives exactly the default expiry |
| `Form.SettleSchoolListMode` | components/GeneratorForm.tsx:25-33 | in list mode with a known school, the effect keeps a listed track, resets any other track to the first entry, and the track then belongs to the list |
| `Form.SchoolChangeExample` | components/GeneratorForm.tsx:25-33 | Engineering to Data with "Frontend Engineering" resets to "Data Analysis" in list mode, and keeps the track in custom mode |
| `Form.EditKeepsListModeConsistent` | components/GeneratorForm.tsx:25-48 | when the track select offers only the school's tracks, every edit keeps the list-mode track in the school's list |
| `Form.SettleSchoolConsistent` | components/GeneratorForm.tsx:25-33 | after the school effect, the list-mode track is in the school's list |
| `Form.ToggleOffConsistent` | components/GeneratorForm.tsx:68-71 | leaving custom mode leaves the track in the school's list |
| `Form.ToggleExample` | components/GeneratorForm.tsx:64-72 | toggling on gives ""; toggling off with Engineering gives "Frontend Engineering" |
| `Form.GeneratorForm.constructor` | components/GeneratorForm.tsx:21-22 | the form mounts in list mode with an empty track list |
| `Form.GeneratorForm.SchoolEffect` | components/GeneratorForm.tsx:25-33 | the effect stores the school's track list and settles the track; the form is then settled |
| `Form.GeneratorForm.HandleInputChange` | components/GeneratorForm.tsx:35-49 | the new record is the copy with the field set and, for a four-digit cohort, the derived expiry |
| `Form.GeneratorForm.Edit` | components/GeneratorForm.tsx:25-49 | an edit, plus the effect if the school changed, keeps the form settled |
| `Form.GeneratorForm.HandleImageUpload` | components/GeneratorForm.tsx:51-57 | a chosen file sets the photo to its object URL and changes nothing else; no file changes nothing |
| `Form.GeneratorForm.HandleRemoveImage` | components/GeneratorForm.tsx:59-62 | removing clears the photo and changes nothing else |
| `Form.GeneratorForm.ToggleTrackMode` | components/GeneratorForm.tsx:64-72 | the mode flips and the track becomes the toggled track; a settled form stays settled |
| `Download.DropWhitespace` | utils/download.ts:15 | the result is the suffix of the input that follows its leading whitespace run |
| `Download.Sanitize` | utils/download.ts:15 | the sanitised stem contains no whitespace and is no longer than the stem |
| `Download.FileName` | utils/download.ts:15 | the file name ends in "_ID.png" |
| `Download.DownloadStem` | App.tsx:37 | the stem is the full name when it is non-empty and "AltSchool_Student" otherwise, so never empty |
| `Download.SanitizeIsScan` | utils/download.ts:15 | the result equals the reference: a run's first whitespace becomes "_", the rest of the run is dropped, and other characters are copied |
| `Download.ScanSkipsRun` | utils/download.ts:15 | in the reference, the rest of a whitespace run contributes nothing |
| `Download.SanitizeKeepsClean` | utils/download.ts:15 | a stem without whitespace is unchanged |
| `Download.SanitizeIdempotent` | utils/download.ts:15 | sanitising twice equals sanitising once |
| `Download.SanitizeKeepsVisible` | utils/download.ts:15 | the characters other than whitespace and "_" are kept, in order |
| `Download.VisibleSkipsWhitespace` | utils/download.ts:15 | dropping leading whitespace does not change those characters |
| `Download.SanitizeCleanPrefix` | utils/download.ts:15 | a whitespace-free prefix is copied through unchanged |
| `Download.SanitizeRunPrefix` | utils/download.ts:15 | a whole leading whitespace run becomes one "_" |
| `Download.DropWhitespaceRun` | utils/download.ts:15 | dropping leading whitespace removes exactly a whole run |
| `Download.SanitizeRunThenWord` | utils/download.ts:15 | a whitespace run followed by a word becomes "_" and the word |
| `Download.SanitizeTwoWords` | utils/download.ts:15 | two words around one whitespace run are joined by a single "_" |
| `Download.FileNameShape` | utils/download.ts:15 | every file name ends in "_ID.png" and contains no whitespace |
| `Download.FileNameOfClean` | utils/download.ts:15 | a stem without whitespace gives the stem followed by "_ID.png" |
| `Download.FileNameCollapsesRun` | utils/download.ts:15 | "Ada  Lovelace" gives "Ada_Lovelace_ID.png" |
| `Download.FileNameFallback` | App.tsx:37 | an empty name gives "AltSchool_Student_ID.png" |
| `Download.FallbackStemIsClean` | App.tsx:37 | the fallback stem passes through the sanitiser unchanged |
| `Download.DownloadIdCard` | utils/download.ts:3-22 | a missing element gives no download and no alert; a rasteriser failure gives the alert and no download; otherwise the file name and data URL are downloaded; no case raises |
| `IdCard.SelectTemplate` | components/IDCard.tsx:243-251 | 'modern' gives modern, 'bold' gives bold, and every other value (an omitted prop too) gives classic |
| `IdCard.DisplayImage` | components/IDCard.tsx:12 | the image is the photo when one is set and the picsum placeholder otherwise, never blank |
| `IdCard.BoldSchoolLabel` | components/IDCard.tsx:206 | the bold school badge is never blank |
| `IdCard.RenderClassic` | components/IDCard.tsx:14-101 | the classic card has non-blank name, track, ID, image and cohort, shows a non-empty track as it is, the school as it is, and the expiry as it is or blank |
| `IdCard.RenderModern` | components/IDCard.tsx:103-174 | the modern card has non-blank name, track, ID, image and cohort, and shows a non-empty track and the school as they are |
| `IdCard.RenderBold` | components/IDCard.tsx:176-241 | the bold card has non-blank name, track, ID, image and school badge, shows a non-empty track as it is, and the expiry as it is or blank |
| `IdCard.Render` | components/IDCard.tsx:243-251 | the modern layout exactly for 'modern', the bold one exactly for 'bold', classic otherwise; each card is that layout's own rendering; name, track, ID and image are never blank |
| `IdCard.SelectTemplateByName` | components/IDCard.tsx:243-251 | each template's own name selects that template |
| `IdCard.ClassicIsDefault` | components/IDCard.tsx:243-251 | an omitted template, 'classic' and any other unknown name render the classic layout |
| `IdCard.SharedFallbacks` | components/IDCard.tsx:12-223 | every layout shows the name or "Student Name", the ID or "ALT-0000", and the photo or the picsum placeholder |
| `IdCard.TrackPlaceholders` | components/IDCard.tsx:65-216 | an empty track shows "Track Name" in classic and bold and "Track" in modern |
| `IdCard.CohortAndExpiry` | components/IDCard.tsx:77-227 | classic and modern show the cohort or "2024"; classic and bold show the expiry as it is, blank when absent; bold has no cohort and modern has no expiry |
| `IdCard.BoldSchoolOfPrefix` | components/IDCard.tsx:206 | the bold badge drops a leading "School of ", and shows "School" when nothing is left |
| `IdCard.BoldSchoolLabels` | components/IDCard.tsx:206 | each school's badge is its name after "School of ": "Engineering", "Product", "Data", "Business" and "Creative Economy" |
| `IdCard.BoldSchoolFirstOccurrence` | components/IDCard.tsx:206 | the badge removes the first "School of " wherever it occurs, and shows "School" if nothing is left |
| `IdCard.BoldSchoolNoPrefix` | components/IDCard.tsx:206 | a school without "School of " shows as it is, or "School" when empty |
| `IdCard.NeverBlank` | components/IDCard.tsx:61-223 | the name, track, ID and image are never blank in any layout |
| `App.Param` | App.tsx:15-18 | `params.get(key)` is present exactly when the key is in the query, and then it is the key's value |
| `App.Decode` | App.tsx:14-26 | each of school, track, cohort and expiry is its parameter when present and non-empty, and the fallback's otherwise; name, ID and photo are the fallback's |
| `App.InitialState` | App.tsx:11-27 | without a window the default; in every case empty name and ID, no photo, and a non-empty school, track, cohort and expiry |
| `App.Encode` | App.tsx:42-53 | the link carries only the four shared keys; it always has the school; it has cohort, expiry and track exactly when each is non-empty, with their values |
| `App.NoWindowGivesDefaults` | App.tsx:12 | without a window the record is the default |
| `App.DecodeIgnoresIdentity` | App.tsx:20-21 | the name, ID and photo are the defaults, whatever the query |
| `App.DecodeIgnoresOtherKeys` | App.tsx:14-25 | parameters other than the four shared ones do not affect the record |
| `App.DecodeAcceptsUnknownSchool` | App.tsx:22 | a non-empty school outside the catalog passes through, and the model's lookup gives it no tracks (see Left out for prototype property names) |
| `App.EncodeOmitsIdentity` | App.tsx:48-52 | the link never has the keys fullName, studentId or profileImage |
| `App.EncodeIgnoresIdentity` | App.tsx:48-52 | the link does not depend on the name, ID or photo |
| `App.RoundTrip` | App.tsx:20-52 | decoding a link restores each non-empty shared field; empty ones and the identity fields come back as the fallback's |
| `App.RoundTripExact` | App.tsx:20-52 | a record with default identity fields and four non-empty shared fields comes back exactly |
| `App.RoundTripDropsEmptyTrack` | App.tsx:23 | a record with an empty track comes back with "Frontend Engineering", so not exactly |
| `App.MountResetsSharedCustomTrack` | components/GeneratorForm.tsx:25-33 | a shared custom track for a catalog school is decoded, then replaced by the school's first track when the form mounts |
| `App.AppState.constructor` | App.tsx:11-31 | the app starts with the decoded record, the classic template, and not generating or copied |
| `App.AppState.SetStudentData` | App.tsx:117 | the form's onChange replaces the record and nothing else |
| `App.AppState.SetTemplate` | App.tsx:139 | selecting a template sets it and nothing else |
| `App.AppState.HandleShare` | App.tsx:42-57 | the result is the encoding of the current record; no stale query key survives; isCopied becomes true |
| `App.AppState.HandleDownload` | App.tsx:33-40 | the export uses the name or "AltSchool_Student"; the outcome is as for downloadIdCard; the busy flag ends false in every case |

## Left out

- The rasteriser (`toPng` from html-to-image), `link.click()`, `alert` and `console.error` are browser and library I/O. Only their outcome is modelled: the rasteriser's result is a parameter, and the outcome datatype records what the user would see.
- The 800 ms `setTimeout` in `handleDownload`, the 2 s reset of `isCopied`, and the interleaving of events while an export is in flight are not modelled. These are timer-driven asynchronous UI timing. `AppState.HandleDownload` runs its three steps in sequence.
- `navigator.clipboard.writeText` is not modelled; `HandleShare` returns the query instead. URL percent-encoding, serialisation and parameter order are not modelled either, and neither are repeated keys (`URLSearchParams.get` returns the first). The query is an abstract key-to-value map.
- `URL.createObjectURL` is not modelled: its result is a parameter. The model does not show that a new upload gives a fresh reference. Revocation is absent because the code never revokes.
- JSX layout, class names, icons, the `Button` component (components/ui/Button is not part of this model) and the reset of the file input's value are left out.
- `new Date().getFullYear()` is replaced by a `nat` parameter.
- Types.TracksFor: the model gives [] for every string that is not one of the five school values. The code does not. For a name of an `Object.prototype` property ("constructor", "toString", "valueOf", "__proto__" and the like), `SCHOOL_TRACKS[school]` yields an inherited value that is truthy but not an array. A link such as `?school=constructor` supplies that school (App.tsx:22). The form mounts in list mode, so `tracks.includes(data.track)` (components/GeneratorForm.tsx:30) then throws a TypeError inside the school effect. The model does not capture that crash.
- App.DecodeAcceptsUnknownSchool: "has no tracks" holds only for strings that are not `Object.prototype` property names; for those the form's effect throws, as the line above says.
- JavaScript strings are UTF-16 code units, while Dafny `char` is a Unicode scalar value. No `\s` character lies outside the Basic Multilingual Plane, so the sanitiser is unaffected.
- Form.GeneratorForm: `data` stands for the record the app passes in as a prop, and the form writes it directly instead of calling `onChange`. React's re-rendering is modelled only as far as `Edit` goes: the school effect runs after an edit that changed the school.
- App.AppState.HandleDownload: states that the busy flag ends false on every path. It does not state that the flag is true while the export runs, because the model runs the export synchronously.
- JsText.ParseDigits: the empty string gives 0, where `parseInt("")` is NaN. The code never parses an empty string: it parses only four-digit cohorts and printed numerals.
- JsText.ReplaceFirst: `$&`, `$$` and `$n` in the replacement are copied literally instead of being expanded. The code's only replacement is "", which has none.
