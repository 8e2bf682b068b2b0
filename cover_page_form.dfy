/**
 * The form component: the field schema, the calendar's selectable range, the
 * saved-topics list and the suggestions shown after a validation round trip.
 */
module CoverPageForm {
  import opened Wrappers
  import opened JsString
  import opened Page
  import opened ValidateInputs
  import opened Actions

  // ---------------------------------------------------------------- schema

  /** The fields of the record, in the order the schema declares them. */
  datatype Field =
    | Department | Session | CourseCode | TeacherName | Designation
    | StudentName | StudentId | SubmissionDate | Topic | DocumentType

  /** The minimum `length` of a text field: 2 for the department, 3 for the others. */
  function MinLength(f: Field): nat
  {
    if f == Department then 2 else 3
  }

  /** The text a text field holds. */
  function TextOf(d: CoverPageData, f: Field): string
    requires f !in {SubmissionDate, Topic, DocumentType}
  {
    match f
    case Department => d.department
    case Session => d.session
    case CourseCode => d.courseCode
    case TeacherName => d.teacherName
    case Designation => d.designation
    case StudentName => d.studentName
    case StudentId => d.studentId
  }

  /** The rule the schema applies to one field. */
  predicate FieldOk(d: CoverPageData, f: Field)
    ensures f !in {SubmissionDate, Topic, DocumentType} ==>
      (FieldOk(d, f) <==> Utf16Length(TextOf(d, f)) >= MinLength(f))
    ensures f == SubmissionDate ==> (FieldOk(d, f) <==> d.submissionDate.Some?)
    ensures f == Topic ==> FieldOk(d, f)
  {
    match f
    case Department => Utf16Length(d.department) >= 2
    case Session => Utf16Length(d.session) >= 3
    case CourseCode => Utf16Length(d.courseCode) >= 3
    case TeacherName => Utf16Length(d.teacherName) >= 3
    case Designation => Utf16Length(d.designation) >= 3
    case StudentName => Utf16Length(d.studentName) >= 3
    case StudentId => Utf16Length(d.studentId) >= 3
    case SubmissionDate => d.submissionDate.Some?
    case Topic => true
    case DocumentType => d.documentType in DocumentTypes
  }

  /** The message the schema attaches to a failing field; None where the library's own is used. */
  function RuleMessage(f: Field): Option<string>
  {
    match f
    case Department => Some("Department is required.")
    case Session => Some("Session is required.")
    case CourseCode => Some("Course code is required.")
    case TeacherName => Some("Teacher's name is required.")
    case Designation => Some("Designation is required.")
    case StudentName => Some("Your name is required.")
    case StudentId => Some("Your ID is required.")
    case SubmissionDate => Some("Submission date is required.")
    case Topic => None
    case DocumentType => None
  }

  /** The fields in the order the schema declares them. */
  const SchemaOrder: seq<Field> :=
    [Department, Session, CourseCode, TeacherName, Designation,
     StudentName, StudentId, SubmissionDate, Topic, DocumentType]

  /** The one-field part of the report: the field itself when its rule fails. */
  function Check(d: CoverPageData, f: Field): seq<Field>
  {
    if FieldOk(d, f) then [] else [f]
  }

  /** The failing fields among `fields`, in their order. */
  function FailingFrom(d: CoverPageData, fields: seq<Field>): seq<Field>
  {
    if fields == [] then [] else Check(d, fields[0]) + FailingFrom(d, fields[1..])
  }

  /** The fields that fail their rule, in schema order (the schema reports every one). */
  function FieldErrors(d: CoverPageData): (r: seq<Field>)
    ensures forall f :: f in r <==> !FieldOk(d, f)
    ensures forall i, j :: 0 <= i < j < |r| ==> SchemaIndex(r[i]) < SchemaIndex(r[j])
  {
    SchemaFailuresExact(d);
    FailingFromSorted(d, SchemaOrder);
    FailingFrom(d, SchemaOrder)
  }

  /** The schema accepts the record: no field is reported. */
  predicate IsValid(d: CoverPageData)
    ensures IsValid(d) <==> forall f :: FieldOk(d, f)
  {
    var errors := FieldErrors(d);
    assert errors != [] ==> errors[0] in errors;
    errors == []
  }

  lemma SchemaListsEveryField(f: Field)
    ensures f in SchemaOrder
  {
    var i := match f
      case Department => 0 case Session => 1 case CourseCode => 2 case TeacherName => 3
      case Designation => 4 case StudentName => 5 case StudentId => 6
      case SubmissionDate => 7 case Topic => 8 case DocumentType => 9;
    assert SchemaOrder[i] == f;
  }

  lemma {:induction false} FailingFromMembers(d: CoverPageData, fields: seq<Field>, f: Field)
    ensures f in FailingFrom(d, fields) <==> f in fields && !FieldOk(d, f)
  {
    if fields != [] {
      FailingFromMembers(d, fields[1..], f);
      assert fields == [fields[0]] + fields[1..];
    }
  }

  /** A field's position in the schema. */
  function SchemaIndex(f: Field): nat
  {
    match f
    case Department => 0 case Session => 1 case CourseCode => 2 case TeacherName => 3
    case Designation => 4 case StudentName => 5 case StudentId => 6
    case SubmissionDate => 7 case Topic => 8 case DocumentType => 9
  }

  /** Fields in strictly increasing schema position. */
  predicate InSchemaOrder(fields: seq<Field>)
  {
    forall i, j :: 0 <= i < j < |fields| ==> SchemaIndex(fields[i]) < SchemaIndex(fields[j])
  }

  /** Filtering keeps the fields in the order they were given. */
  lemma {:induction false} FailingFromSorted(d: CoverPageData, fields: seq<Field>)
    requires InSchemaOrder(fields)
    ensures InSchemaOrder(FailingFrom(d, fields))
  {
    if fields != [] {
      assert InSchemaOrder(fields[1..]);
      FailingFromSorted(d, fields[1..]);
      FailingFromSubset(d, fields[1..]);
      var rest := FailingFrom(d, fields[1..]);
      forall g | g in rest ensures SchemaIndex(fields[0]) < SchemaIndex(g) {
        var k :| 0 <= k < |fields[1..]| && fields[1..][k] == g;
        assert fields[k + 1] == g;
      }
    }
  }

  /** Every reported field is one of the fields given. */
  lemma {:induction false} FailingFromSubset(d: CoverPageData, fields: seq<Field>)
    ensures forall f :: f in FailingFrom(d, fields) ==> f in fields
  {
    if fields != [] {
      FailingFromSubset(d, fields[1..]);
    }
  }

  /** Running the rules over the whole schema reports exactly the failing fields. */
  lemma SchemaFailuresExact(d: CoverPageData)
    ensures forall f :: f in FailingFrom(d, SchemaOrder) <==> !FieldOk(d, f)
  {
    forall f ensures f in FailingFrom(d, SchemaOrder) <==> !FieldOk(d, f) {
      FailingFromMembers(d, SchemaOrder, f);
      SchemaListsEveryField(f);
    }
  }

  /** Records that agree on every rule report the same failures. */
  lemma {:induction false} FailingFromAgree(d1: CoverPageData, d2: CoverPageData, fields: seq<Field>)
    requires forall f :: FieldOk(d1, f) <==> FieldOk(d2, f)
    ensures FailingFrom(d1, fields) == FailingFrom(d2, fields)
  {
    if fields != [] {
      FailingFromAgree(d1, d2, fields[1..]);
    }
  }

  lemma SchemaOrderEntries()
    ensures && SchemaOrder[0] == Department && SchemaOrder[1] == Session
            && SchemaOrder[2] == CourseCode && SchemaOrder[3] == TeacherName
            && SchemaOrder[4] == Designation && SchemaOrder[5] == StudentName
            && SchemaOrder[6] == StudentId && SchemaOrder[7] == SubmissionDate
            && SchemaOrder[8] == Topic && SchemaOrder[9] == DocumentType
  {
  }

  lemma FailingFromStep(d: CoverPageData, k: nat)
    requires k < |SchemaOrder|
    ensures FailingFrom(d, SchemaOrder[k..]) == Check(d, SchemaOrder[k]) + FailingFrom(d, SchemaOrder[k + 1..])
  {
    assert SchemaOrder[k..][1..] == SchemaOrder[k + 1..];
  }

  /**
   * The schema accepts a record exactly when the department has at least 2
   * code units, the other six text fields at least 3, a date is present and
   * the document type is one of the enum.
   */
  lemma ValidIff(d: CoverPageData)
    ensures IsValid(d) <==>
      && Utf16Length(d.department) >= 2
      && Utf16Length(d.session) >= 3
      && Utf16Length(d.courseCode) >= 3
      && Utf16Length(d.teacherName) >= 3
      && Utf16Length(d.designation) >= 3
      && Utf16Length(d.studentName) >= 3
      && Utf16Length(d.studentId) >= 3
      && d.submissionDate.Some?
      && d.documentType in DocumentTypes
  {
    assert (forall f :: FieldOk(d, f)) ==>
      && FieldOk(d, Department) && FieldOk(d, Session) && FieldOk(d, CourseCode)
      && FieldOk(d, TeacherName) && FieldOk(d, Designation) && FieldOk(d, StudentName)
      && FieldOk(d, StudentId) && FieldOk(d, SubmissionDate) && FieldOk(d, DocumentType);
  }

  /** Enough characters in every text field (each is at least one code unit) makes a present, typed record valid. */
  lemma ValidFromCharacterCounts(d: CoverPageData)
    requires |d.department| >= 2
    requires |d.session| >= 3 && |d.courseCode| >= 3 && |d.teacherName| >= 3
    requires |d.designation| >= 3 && |d.studentName| >= 3 && |d.studentId| >= 3
    requires d.submissionDate.Some? && d.documentType in DocumentTypes
    ensures IsValid(d)
  {
    ValidIff(d);
  }

  /** The topic never affects which fields fail, for any document type. */
  lemma TopicNeverMatters(d: CoverPageData, topic: Option<string>)
    ensures FieldErrors(d.(topic := topic)) == FieldErrors(d)
  {
    FailingFromAgree(d.(topic := topic), d, SchemaOrder);
  }

  /** Which present date the record holds never matters to the schema. */
  lemma SchemaIgnoresDateValue(d: CoverPageData, day: Day)
    requires d.submissionDate.Some?
    ensures FieldErrors(d.(submissionDate := Some(day))) == FieldErrors(d)
  {
    FailingFromAgree(d.(submissionDate := Some(day)), d, SchemaOrder);
  }

  /** A text field shorter than its minimum is reported and makes the record invalid. */
  lemma ShortFieldInvalid(d: CoverPageData, f: Field)
    requires f !in {SubmissionDate, Topic, DocumentType}
    requires Utf16Length(TextOf(d, f)) < MinLength(f)
    ensures f in FieldErrors(d) && !IsValid(d)
  {
  }

  /** The default record fails on exactly the six empty text fields. */
  lemma DefaultValuesFail(today: Day)
    ensures FieldErrors(DefaultValues(today)) ==
      [Session, CourseCode, TeacherName, Designation, StudentName, StudentId]
  {
    DefaultFailuresFrom0(today);
    assert SchemaOrder[0..] == SchemaOrder;
  }

  lemma DefaultFailuresFrom0(today: Day)
    ensures FailingFrom(DefaultValues(today), SchemaOrder[0..]) ==
      [Session, CourseCode, TeacherName, Designation, StudentName, StudentId]
  {
    var d := DefaultValues(today);
    DefaultChecks(today);
    SchemaOrderEntries();
    DefaultFailuresFrom4(today);
    FailingFromStep(d, 3);
    FailingFromStep(d, 2);
    FailingFromStep(d, 1);
    FailingFromStep(d, 0);
  }

  lemma DefaultFailuresFrom4(today: Day)
    ensures FailingFrom(DefaultValues(today), SchemaOrder[4..]) == [Designation, StudentName, StudentId]
  {
    var d := DefaultValues(today);
    DefaultChecks(today);
    SchemaOrderEntries();
    DefaultFailuresFrom7(today);
    FailingFromStep(d, 6);
    FailingFromStep(d, 5);
    FailingFromStep(d, 4);
  }

  lemma DefaultFailuresFrom7(today: Day)
    ensures FailingFrom(DefaultValues(today), SchemaOrder[7..]) == []
  {
    var d := DefaultValues(today);
    DefaultChecks(today);
    SchemaOrderEntries();
    assert SchemaOrder[10..] == [];
    FailingFromStep(d, 9);
    FailingFromStep(d, 8);
    FailingFromStep(d, 7);
  }

  /** Field by field, the rules on the default record. */
  lemma DefaultChecks(today: Day)
    ensures var d := DefaultValues(today);
      && FieldOk(d, Department) && !FieldOk(d, Session) && !FieldOk(d, CourseCode)
      && !FieldOk(d, TeacherName) && !FieldOk(d, Designation) && !FieldOk(d, StudentName)
      && !FieldOk(d, StudentId) && FieldOk(d, SubmissionDate) && FieldOk(d, Topic)
      && FieldOk(d, DocumentType)
  {
    var d := DefaultValues(today);
    assert |d.department| == 3 && d.session == [];
    assert d.documentType == DocumentTypes[0];
  }

  /** `length` counts UTF-16 code units, so two characters can meet a minimum of 3. */
  lemma LengthCountsCodeUnits()
    ensures Utf16Length("a\U{1F600}") == 3
  {
  }

  /** zod's `safeParse`: the record itself, or one issue per failing field. */
  datatype Issue = Issue(field: Field, message: Option<string>)

  function SafeParse(d: CoverPageData): (r: Result<CoverPageData, seq<Issue>>)
    ensures r.Success? <==> IsValid(d)
    ensures r.Success? ==> r.value == d
    ensures r.Failure? ==>
      |r.error| == |FieldErrors(d)| > 0 &&
      forall i :: 0 <= i < |r.error| ==>
        r.error[i] == Issue(FieldErrors(d)[i], RuleMessage(FieldErrors(d)[i]))
  {
    var errors := FieldErrors(d);
    if errors == [] then Success(d)
    else Failure(seq(|errors|, i requires 0 <= i < |errors| => Issue(errors[i], RuleMessage(errors[i]))))
  }

  // -------------------------------------------------------------- calendar

  const MsPerDay: int := 86400000

  /** 1900-01-01 as a day number. */
  const FirstSelectableDay: Day := -25567

  /** `new Date("1900-01-01")`: a date-only ISO string is read as UTC midnight (milliseconds). */
  const Jan1900Utc: int := -25567 * 86400000

  /**
   * The instant at which the calendar's Date for `day` starts: local midnight
   * in a zone `offset` milliseconds east of UTC.
   */
  function LocalMidnight(day: Day, offset: int): int
  {
    day * 86400000 - offset
  }

  /** The local day number of the instant `now`. */
  function LocalDay(now: int, offset: int): Day
  {
    (now + offset) / 86400000
  }

  /**
   * The `disabled` predicate as written, on instants: `date > new Date() ||
   * date < new Date("1900-01-01")`. Its upper bound is a bound on local days.
   */
  predicate CalendarDisabledAsWritten(day: Day, offset: int, now: int)
    ensures CalendarDisabledAsWritten(day, offset, now) <==>
      day > LocalDay(now, offset) || LocalMidnight(day, offset) < Jan1900Utc
  {
    UpperBoundAgrees(day, offset, now);
    LocalMidnight(day, offset) > now || LocalMidnight(day, offset) < Jan1900Utc
  }

  /**
   * The same predicate with its lower bound at local midnight, as
   * `new Date(1900, 0, 1)` would give.
   */
  predicate CalendarDisabledFixed(day: Day, offset: int, now: int)
  {
    LocalMidnight(day, offset) > now || LocalMidnight(day, offset) < LocalMidnight(FirstSelectableDay, offset)
  }

  /** The calendar's evident intent, on day numbers: anything after today or before 1900-01-01 is disabled. */
  predicate DateDisabled(day: Day, today: Day)
  {
    day > today || day < FirstSelectableDay
  }

  /** In every zone, the predicate with a local-midnight lower bound disables exactly the days outside [1900-01-01, today]. */
  lemma FixedAgreesEverywhere(day: Day, offset: int, now: int)
    ensures CalendarDisabledFixed(day, offset, now) <==> DateDisabled(day, LocalDay(now, offset))
    ensures !CalendarDisabledFixed(day, offset, now) <==> FirstSelectableDay <= day <= LocalDay(now, offset)
  {
    UpperBoundAgrees(day, offset, now);
    if day >= FirstSelectableDay {
      assert day * 86400000 >= FirstSelectableDay * 86400000;
    } else {
      assert day * 86400000 <= FirstSelectableDay * 86400000 - 86400000;
    }
  }

  /** The upper bound as written agrees with the day-number one in every zone. */
  lemma UpperBoundAgrees(day: Day, offset: int, now: int)
    ensures LocalMidnight(day, offset) > now <==> day > LocalDay(now, offset)
  {
    var x := now + offset;
    var q := x / 86400000;
    assert q * 86400000 <= x < q * 86400000 + 86400000;
    if day > q {
      assert day * 86400000 >= q * 86400000 + 86400000;
    } else {
      assert day * 86400000 <= q * 86400000;
    }
  }

  /** At UTC or west of it (offset in (-1 day, 0]), the predicate as written is the intended one. */
  lemma AsWrittenAgreesAtOrWestOfUtc(day: Day, offset: int, now: int)
    requires -86400000 < offset <= 0
    ensures CalendarDisabledAsWritten(day, offset, now) <==> DateDisabled(day, LocalDay(now, offset))
  {
    UpperBoundAgrees(day, offset, now);
    if day >= FirstSelectableDay {
      assert day * 86400000 >= FirstSelectableDay * 86400000;
    } else {
      assert day * 86400000 <= FirstSelectableDay * 86400000 - 86400000;
    }
  }

  /**
   * East of UTC, local midnight of 1900-01-01 falls before UTC midnight, so
   * the predicate as written disables 1900-01-01 although it is in range.
   */
  lemma FirstDayDisabledEastOfUtc(offset: int, now: int)
    requires 0 < offset
    requires LocalDay(now, offset) >= FirstSelectableDay
    ensures CalendarDisabledAsWritten(FirstSelectableDay, offset, now)
    ensures !DateDisabled(FirstSelectableDay, LocalDay(now, offset))
  {
  }

  /** The instance in Bangladesh time (UTC+6), where the institution is. */
  lemma FirstDayDisabledInDhaka()
    ensures CalendarDisabledAsWritten(FirstSelectableDay, 6 * 3600000, 1710460800000)
    ensures !DateDisabled(FirstSelectableDay, LocalDay(1710460800000, 6 * 3600000))
  {
  }

  // ------------------------------------------------------------ topic list

  /** `handleTopicBlur`'s update: append the trimmed value when it is non-empty and new. */
  function AddTopic(saved: seq<string>, value: string): (r: seq<string>)
    ensures saved <= r && |r| <= |saved| + 1
    ensures r != saved ==> r == saved + [Trim(value)] && Trim(value) != "" && Trim(value) !in saved
  {
    var t := Trim(value);
    if t != "" && t !in saved then saved + [t] else saved
  }

  predicate NoDuplicates(s: seq<string>)
  {
    forall i, j :: 0 <= i < j < |s| ==> s[i] != s[j]
  }

  /**
   * The list keeps its elements and their order and gains at most the
   * trimmed value, exactly when that is non-empty; a blank value changes nothing.
   */
  lemma AddTopicContents(saved: seq<string>, value: string)
    ensures var r := AddTopic(saved, value);
      && saved <= r && |r| <= |saved| + 1
      && (forall x :: x in r <==> x in saved || (x == Trim(value) && x != ""))
      && (AllTrimmable(value) ==> r == saved)
      && (Trim(value) in saved ==> r == saved)
      && (r != saved ==> r == saved + [Trim(value)])
  {
    TrimEmptyIff(value);
  }

  /** A duplicate-free list stays duplicate-free. */
  lemma AddTopicKeepsNoDuplicates(saved: seq<string>, value: string)
    requires NoDuplicates(saved)
    ensures NoDuplicates(AddTopic(saved, value))
  {
    var r := AddTopic(saved, value);
    if r != saved {
      forall i, j | 0 <= i < j < |r| ensures r[i] != r[j] {
        if j == |saved| {
          assert r[i] in saved;
        }
      }
    }
  }

  /** The update never adds an empty string, and what it adds is already trimmed. */
  lemma AddTopicAddsTrimmed(saved: seq<string>, value: string)
    ensures "" in AddTopic(saved, value) ==> "" in saved
    ensures forall x :: x in AddTopic(saved, value) && x !in saved ==> x != "" && Trim(x) == x
  {
    var t, r := Trim(value), AddTopic(saved, value);
    TrimIdempotent(value);
    if r != saved {
      assert r == saved + [t] && t != "";
      assert forall x :: x in r && x !in saved ==> x == t;
    }
  }

  /** Blurring twice with the same value is blurring once. */
  lemma AddTopicIdempotent(saved: seq<string>, value: string)
    ensures AddTopic(AddTopic(saved, value), value) == AddTopic(saved, value)
  {
  }

  // ----------------------------------------------------------- suggestions

  const AllGoodMessage: string := "All inputs look good!"

  /** The suggestions shown after a successful call: the upstream list, or the affirmative message. */
  function ShownSuggestions(upstream: seq<string>): (r: seq<string>)
    ensures r != []
    ensures upstream != [] ==> r == upstream
    ensures upstream == [] ==> r == [AllGoodMessage]
  {
    if |upstream| > 0 then upstream else [AllGoodMessage]
  }

  /** What `aiSuggestions` holds once the action's result is in (cleared beforehand). */
  function SuggestionsAfter(result: ActionResult<ValidateInputsOutput>): (r: seq<string>)
    ensures r != [] <==> result.success && result.data.Some?
    ensures r != [] ==> r == ShownSuggestions(result.data.value.suggestions)
  {
    if result.success && result.data.Some? then ShownSuggestions(result.data.value.suggestions) else []
  }

  /** Suggestions are shown exactly after a successful call; a failed call leaves none. */
  lemma SuggestionsAfterCall(outcome: CallOutcome<ValidateInputsOutput>)
    ensures var shown := SuggestionsAfter(ValidateInputsAction(outcome));
      && (shown != [] <==> outcome.Returned?)
      && (outcome.Returned? ==> shown == ShownSuggestions(outcome.out.suggestions))
  {
  }

  /** `dataForAI`: the record with the institution added and the date serialised by `toIsoDate`. */
  function RequestFor(d: CoverPageData, toIsoDate: Day -> string): (r: ValidateInputsInput)
    requires d.submissionDate.Some?
    ensures r.universityName == UniversityName
    ensures r.submissionDate == toIsoDate(d.submissionDate.value)
    ensures r.topic == d.topic && r.documentType == d.documentType
    ensures && r.department == d.department && r.session == d.session && r.courseCode == d.courseCode
            && r.teacherName == d.teacherName && r.designation == d.designation
            && r.studentName == d.studentName && r.studentId == d.studentId
    ensures InputConforms(r) <==> d.documentType in DocumentTypes
  {
    ValidateInputsInput(
      UniversityName, d.department, d.session, d.courseCode, d.teacherName,
      d.designation, d.studentName, d.studentId,
      toIsoDate(d.submissionDate.value), d.topic, d.documentType)
  }

  /** A record the form schema accepts makes a request the flow's input schema accepts. */
  lemma ValidRecordMakesConformingRequest(d: CoverPageData, toIsoDate: Day -> string)
    requires IsValid(d)
    ensures d.submissionDate.Some?
    ensures InputConforms(RequestFor(d, toIsoDate))
  {
    ValidIff(d);
  }

  // ------------------------------------------------------------ form state

  /** The component's own state: the remembered topics and the shown suggestions. */
  class FormState {
    var savedTopics: seq<string>
    var suggestions: seq<string>

    constructor ()
      ensures savedTopics == [] && suggestions == []
    {
      savedTopics := [];
      suggestions := [];
    }

    /** `handleTopicBlur`, with `value` the input's text when it loses focus. */
    method HandleTopicBlur(value: string)
      modifies this
      ensures savedTopics == AddTopic(old(savedTopics), value)
      ensures NoDuplicates(old(savedTopics)) ==> NoDuplicates(savedTopics)
      ensures suggestions == old(suggestions)
    {
      var newTopic := Trim(value);
      if newTopic != "" && newTopic !in savedTopics {
        savedTopics := savedTopics + [newTopic];
      }
      if NoDuplicates(old(savedTopics)) {
        AddTopicKeepsNoDuplicates(old(savedTopics), value);
      }
    }

    /**
     * `onValidate`: clear the suggestions, send the request, and show the
     * suggestions of a successful result. `outcome` is what the flow call did.
     */
    method OnValidate(formData: CoverPageData, toIsoDate: Day -> string, outcome: CallOutcome<ValidateInputsOutput>)
      returns (sent: ValidateInputsInput)
      requires formData.submissionDate.Some?
      modifies this
      ensures sent == RequestFor(formData, toIsoDate)
      ensures suggestions == SuggestionsAfter(ValidateInputsAction(outcome))
      ensures savedTopics == old(savedTopics)
    {
      suggestions := [];
      sent := RequestFor(formData, toIsoDate);
      var result := ValidateInputsAction(outcome);
      if result.success && result.data.Some? {
        suggestions := ShownSuggestions(result.data.value.suggestions);
      }
    }

    /** `form.handleSubmit(onValidate)`: the round trip runs only for a record the schema accepts. */
    method Submit(formData: CoverPageData, toIsoDate: Day -> string, outcome: CallOutcome<ValidateInputsOutput>)
      returns (sent: Option<ValidateInputsInput>)
      modifies this
      ensures sent.Some? <==> IsValid(formData)
      ensures sent.Some? ==> formData.submissionDate.Some? && sent.value == RequestFor(formData, toIsoDate)
      ensures sent.Some? ==> InputConforms(sent.value)
      ensures suggestions == if IsValid(formData) then SuggestionsAfter(ValidateInputsAction(outcome)) else old(suggestions)
      ensures savedTopics == old(savedTopics)
    {
      if IsValid(formData) {
        ValidRecordMakesConformingRequest(formData, toIsoDate);
        var request := OnValidate(formData, toIsoDate, outcome);
        sent := Some(request);
      } else {
        sent := None;
      }
    }
  }
}
