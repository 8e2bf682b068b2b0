/** The form record shared by the form and the preview, and the page's default values. */
module Page {
  import opened Wrappers

  /** A calendar day, counted in days from 1970-01-01 (negative before it). */
  type Day = int

  /**
   * The watched form values. Text fields hold what the inputs hold ("" when
   * untouched); `documentType` is "" also when the value is missing, since
   * every component treats the two alike.
   */
  datatype CoverPageData = CoverPageData(
    department: string,
    session: string,
    courseCode: string,
    teacherName: string,
    designation: string,
    studentName: string,
    studentId: string,
    submissionDate: Option<Day>,
    topic: Option<string>,
    documentType: string)

  /** The three document types the schemas accept, in their declared order. */
  const Assignment: string := "assignment"
  const LabReport: string := "lab report"
  const GeneralNote: string := "general note"
  const DocumentTypes: seq<string> := [Assignment, LabReport, GeneralNote]

  /** The institution name both the preview and the validation request use. */
  const UniversityName: string := "Chandpur Science and Technology"

  /** The form's `defaultValues`; `today` stands for `new Date()`. */
  function DefaultValues(today: Day): (d: CoverPageData)
    ensures d.department == "CSE" && d.documentType == Assignment
    ensures d.session == d.courseCode == d.teacherName == d.designation == d.studentName == d.studentId == ""
    ensures d.submissionDate == Some(today) && d.topic == Some("")
  {
    CoverPageData("CSE", "", "", "", "", "", "", Some(today), Some(""), Assignment)
  }
}
