/** Properties that tie the form's schema to the preview. */
module CoverPage {
  import opened Wrappers
  import opened JsString
  import opened Page
  import opened CoverPagePreview
  import opened CoverPageForm

  /** A record the schema accepts shows its own values on the page and no placeholder. */
  lemma ValidRecordRendersOwnValues(d: CoverPageData, formatDate: Day -> string)
    requires IsValid(d)
    ensures var p := Render(d, formatDate);
      && p.department == "Department of " + d.department
      && p.courseCode == "Course Code: " + d.courseCode
      && p.session == "Session: " + d.session
      && p.teacherName == d.teacherName
      && p.designation == d.designation
      && p.studentName == d.studentName
      && p.studentId == "ID: " + d.studentId
      && d.submissionDate.Some? && p.submissionDate == formatDate(d.submissionDate.value)
      && p.title != "Document"
  {
    ValidIff(d);
  }

  /** An assignment on "Data Structures" for CSE, as the user fills it in. */
  function ScenarioRecord(): CoverPageData
  {
    CoverPageData("CSE", "Fall 2024", "CSE-101", "Dr. Alan Turing", "Professor",
      "Ada Lovelace", "20240001", Some(19797), Some("Data Structures"), Assignment)
  }

  /** Every rule holds of the scenario record with any department of at least two characters. */
  lemma ScenarioValidWith(department: string)
    requires |department| >= 2
    ensures IsValid(ScenarioRecord().(department := department))
  {
    var d := ScenarioRecord().(department := department);
    assert d.documentType == DocumentTypes[0];
    ValidFromCharacterCounts(d);
  }

  /** The scenario record passes the schema. */
  lemma ScenarioIsValid()
    ensures IsValid(ScenarioRecord())
  {
    ScenarioValidWith("CSE");
  }

  /** The scenario renders its title with the topic. */
  lemma ScenarioRendersTitle(formatDate: Day -> string)
    ensures Render(ScenarioRecord(), formatDate).title == "Assignment on \"Data Structures\""
  {
    var d := ScenarioRecord();
    assert Capitalize(DocTypeText(d.documentType)) == "Assignment" by {
      assert DocTypeText(d.documentType) == "assignment";
    }
    TitleWithTopic(d, "Data Structures");
  }

  /** The scenario renders its department line. */
  lemma ScenarioRendersDepartment(formatDate: Day -> string)
    ensures Render(ScenarioRecord(), formatDate).department == "Department of CSE"
  {
  }

  /** The department is only length-checked: a code outside the select's three choices passes. */
  lemma DepartmentNotEnumChecked()
    ensures IsValid(ScenarioRecord().(department := "EEE"))
  {
    ScenarioValidWith("EEE");
  }
}
