/**
 * The live preview: a pure projection of the watched form values onto the
 * text of the cover page. Empty fields show fixed placeholders, never an error.
 */
module CoverPagePreview {
  import opened Wrappers
  import opened JsString
  import opened Page

  /** JavaScript's `value || placeholder` on strings: only "" is falsy. */
  function OrElse(value: string, placeholder: string): (r: string)
    ensures r == value || r == placeholder
    ensures value != "" ==> r == value
    ensures r == "" <==> value == "" && placeholder == ""
  {
    if value == "" then placeholder else value
  }

  /** `s.charAt(0).toUpperCase() + s.slice(1)`. */
  function Capitalize(s: string): (r: string)
    ensures |r| == |s|
    ensures s != [] ==> r[0] == ToUpperAscii(s[0])
    ensures forall i :: 0 < i < |s| ==> r[i] == s[i]
  {
    if s == [] then [] else [ToUpperAscii(s[0])] + s[1..]
  }

  /** Upper-casing the first character again changes nothing. */
  lemma CapitalizeIdempotent(s: string)
    ensures Capitalize(Capitalize(s)) == Capitalize(s)
  {
  }

  /** `data.documentType || "document"`. */
  function DocTypeText(documentType: string): string
  {
    OrElse(documentType, "document")
  }

  /** Whether the title names the topic: a topic-bearing type and a truthy topic. */
  predicate ShowsTopic(d: CoverPageData)
  {
    var docType := DocTypeText(d.documentType);
    (docType == Assignment || docType == LabReport) && d.topic.Some? && d.topic.value != ""
  }

  /** `getTitle`: the capitalized type, followed by ` on "topic"` exactly when the topic is shown. */
  function Title(d: CoverPageData): (r: string)
    ensures Capitalize(DocTypeText(d.documentType)) <= r
    ensures ShowsTopic(d) <==> |r| > |Capitalize(DocTypeText(d.documentType))|
    ensures r != []
  {
    var capitalized := Capitalize(DocTypeText(d.documentType));
    if ShowsTopic(d) then capitalized + " on \"" + d.topic.value + "\"" else capitalized
  }

  /** An assignment or lab report with a non-empty topic is titled `Type on "topic"`. */
  lemma TitleWithTopic(d: CoverPageData, topic: string)
    requires d.documentType == Assignment || d.documentType == LabReport
    requires d.topic == Some(topic) && topic != ""
    ensures Title(d) == Capitalize(d.documentType) + " on \"" + topic + "\""
  {
  }

  /** A general note, or any type without a topic, is titled by its type alone. */
  lemma TitleWithoutTopic(d: CoverPageData)
    requires d.documentType == GeneralNote || d.topic == None || d.topic == Some("")
    ensures Title(d) == Capitalize(DocTypeText(d.documentType))
  {
  }

  /** The title is the bare capitalized type exactly when no topic is shown. */
  lemma TitleIsBareTypeIff(d: CoverPageData)
    ensures Title(d) == Capitalize(DocTypeText(d.documentType)) <==> !ShowsTopic(d)
  {
    if ShowsTopic(d) {
      assert |Title(d)| > |Capitalize(DocTypeText(d.documentType))|;
    }
  }

  /** Among titles that show a topic, the title determines the document type and the topic. */
  lemma TitleDeterminesTopic(d1: CoverPageData, d2: CoverPageData)
    requires ShowsTopic(d1) && ShowsTopic(d2)
    requires Title(d1) == Title(d2)
    ensures d1.documentType == d2.documentType
    ensures d1.topic == d2.topic
  {
    assert Title(d1)[0] == Capitalize(DocTypeText(d1.documentType))[0];
    assert Title(d2)[0] == Capitalize(DocTypeText(d2.documentType))[0];
    assert Capitalize(Assignment)[0] == 'A' && Capitalize(LabReport)[0] == 'L';
    var prefix := Capitalize(DocTypeText(d1.documentType)) + " on \"";
    var t1, t2 := d1.topic.value, d2.topic.value;
    assert Title(d1) == prefix + t1 + "\"";
    assert Title(d2) == prefix + t2 + "\"";
    assert |t1| == |t2|;
    assert t1 == Title(d1)[|prefix|..|prefix| + |t1|];
    assert t2 == Title(d2)[|prefix|..|prefix| + |t2|];
  }

  /** A missing or empty document type gives the title "Document". */
  lemma TitleMissingDocType(d: CoverPageData)
    requires d.documentType == ""
    ensures Title(d) == "Document"
  {
  }

  /** The title of a general note ignores its topic. */
  lemma TitleGeneralNoteExample(d: CoverPageData)
    requires d.documentType == GeneralNote
    ensures Title(d) == "General note"
  {
  }

  /** The text lines of the rendered page, in reading order. */
  datatype PageText = PageText(
    university: string,
    department: string,
    title: string,
    courseCode: string,
    session: string,
    teacherName: string,
    designation: string,
    studentName: string,
    studentId: string,
    submissionDate: string)

  /**
   * The page for the watched values. `formatDate` stands for date-fns
   * `format(date, "do MMMM, yyyy")`.
   */
  function Render(d: CoverPageData, formatDate: Day -> string): (p: PageText)
    ensures p.university == UniversityName && p.title == Title(d)
    ensures "Department of " <= p.department && "Course Code: " <= p.courseCode
    ensures "Session: " <= p.session && "ID: " <= p.studentId
    ensures p.teacherName != "" && p.designation != "" && p.studentName != ""
    ensures d.submissionDate.None? ==> p.submissionDate == "..."
  {
    PageText(
      UniversityName,
      "Department of " + OrElse(d.department, "..."),
      Title(d),
      "Course Code: " + OrElse(d.courseCode, "..."),
      "Session: " + OrElse(d.session, "..."),
      OrElse(d.teacherName, "Teacher Name"),
      OrElse(d.designation, "Designation"),
      OrElse(d.studentName, "Student Name"),
      "ID: " + OrElse(d.studentId, "Student ID"),
      match d.submissionDate
      case Some(day) => formatDate(day)
      case None => "...")
  }

  /** Each empty field shows its placeholder; each non-empty field shows itself. */
  lemma RenderFallbacks(d: CoverPageData, formatDate: Day -> string)
    ensures var p := Render(d, formatDate);
      && p.university == "Chandpur Science and Technology"
      && p.department == "Department of " + (if d.department == "" then "..." else d.department)
      && p.courseCode == "Course Code: " + (if d.courseCode == "" then "..." else d.courseCode)
      && p.session == "Session: " + (if d.session == "" then "..." else d.session)
      && p.teacherName == (if d.teacherName == "" then "Teacher Name" else d.teacherName)
      && p.designation == (if d.designation == "" then "Designation" else d.designation)
      && p.studentName == (if d.studentName == "" then "Student Name" else d.studentName)
      && p.studentId == "ID: " + (if d.studentId == "" then "Student ID" else d.studentId)
      && p.submissionDate == (if d.submissionDate.None? then "..." else formatDate(d.submissionDate.value))
  {
  }

  /** No line of the page is ever the empty string, whatever the form holds (a line of spaces can still look blank). */
  lemma RenderNeverEmpty(d: CoverPageData, formatDate: Day -> string)
    requires d.submissionDate.Some? ==> formatDate(d.submissionDate.value) != ""
    ensures var p := Render(d, formatDate);
      && p.university != "" && p.department != "" && p.title != "" && p.courseCode != ""
      && p.session != "" && p.teacherName != "" && p.designation != ""
      && p.studentName != "" && p.studentId != "" && p.submissionDate != ""
  {
    assert |DocTypeText(d.documentType)| > 0;
  }

  /** The page never depends on the topic of a general note. */
  lemma RenderIgnoresGeneralNoteTopic(d: CoverPageData, topic: Option<string>, formatDate: Day -> string)
    requires d.documentType == GeneralNote
    ensures Render(d.(topic := topic), formatDate) == Render(d, formatDate)
  {
  }
}
