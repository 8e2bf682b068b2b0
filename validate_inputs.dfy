/**
 * The request and response shapes of the input-validation flow. The flow
 * itself prompts an external language model and is not part of this model;
 * only its typed boundary is.
 */
module ValidateInputs {
  import opened Wrappers
  import opened Page

  /** What the form sends: every field as text, plus the institution name. */
  datatype ValidateInputsInput = ValidateInputsInput(
    universityName: string,
    department: string,
    session: string,
    courseCode: string,
    teacherName: string,
    designation: string,
    studentName: string,
    studentId: string,
    submissionDate: string,
    topic: Option<string>,
    documentType: string)

  /** What the flow returns: a checked copy of every field and a list of suggestions. */
  datatype ValidateInputsOutput = ValidateInputsOutput(
    validatedUniversityName: string,
    validatedDepartment: string,
    validatedSession: string,
    validatedCourseCode: string,
    validatedTeacherName: string,
    validatedDesignation: string,
    validatedStudentName: string,
    validatedStudentId: string,
    validatedSubmissionDate: string,
    validatedTopic: Option<string>,
    suggestions: seq<string>)

  /**
   * The flow's input schema: all fields are strings (the types already say
   * so), the topic may be absent, and the document type is one of the enum.
   */
  predicate InputConforms(input: ValidateInputsInput)
  {
    input.documentType in DocumentTypes
  }
}
