/** `transform_to_quacs_schema`: rebuilding schema-less Schedge course
    records as the fixed-shape QuACS document
    `{"courses": [course]}`, course -> sections -> instructors / meetings.

    The functions say what each output record is; the methods build the
    lists with loops and appends, as the Python does, and are proved to
    produce exactly what the functions describe. The lemmas state the
    shape, fallback and naming rules of the output. */
module Quacs {
  import opened Text
  import opened Json

  datatype Option<T> = None | Some(value: T)

  // ---------------------------------------------------------------------
  // Which inputs the Python accepts without a TypeError or AttributeError.

  /** `for x in v: x.get(...)` runs without a TypeError or AttributeError:
      `v` is a list of dicts, or an empty string or empty dict (which yield
      nothing). */
  predicate DictIterable(v: JValue) {
    match v
    case JList(items) => forall k :: 0 <= k < |items| ==> items[k].JObj?
    case JStr(s) => s == []
    case JObj(fields) => |fields| == 0
    case _ => false
  }

  /** What `for x in v` visits, for a `DictIterable` value. */
  function Elements(v: JValue): seq<JValue> {
    if v.JList? then v.items else []
  }

  /** The elements of `o.get(k, [])`. */
  function Children(o: Obj, k: string): seq<JValue> {
    Elements(GetOr(o, k, JList([])))
  }

  predicate AllObjects(xs: seq<JValue>) {
    forall k :: 0 <= k < |xs| ==> xs[k].JObj?
  }

  predicate WellShapedSection(s: JValue) {
    && s.JObj?
    && DictIterable(GetOr(s.fields, "instructors", JList([])))
    && DictIterable(GetOr(s.fields, "meetings", JList([])))
  }

  predicate WellShapedCourse(c: JValue) {
    && c.JObj?
    && DictIterable(GetOr(c.fields, "sections", JList([])))
    && forall k :: 0 <= k < |Children(c.fields, "sections")| ==> WellShapedSection(Children(c.fields, "sections")[k])
  }

  predicate WellShapedInput(raw: seq<JValue>) {
    forall k :: 0 <= k < |raw| ==> WellShapedCourse(raw[k])
  }

  lemma ChildrenAreObjects(o: Obj, k: string)
    requires DictIterable(GetOr(o, k, JList([])))
    ensures AllObjects(Children(o, k))
  {
  }

  // ---------------------------------------------------------------------
  // The output records.

  function Subject(c: Obj): JValue {
    OrElse(OrElse(Get(c, "subjectCode"), Get(c, "subject")), JStr(""))
  }

  function Number(c: Obj): JValue {
    OrElse(OrElse(OrElse(Get(c, "courseNumber"), Get(c, "code")), Get(c, "catalogNumber")), JStr(""))
  }

  function Title(c: Obj): JValue {
    OrElse(OrElse(Get(c, "name"), Get(c, "title")), JStr(""))
  }

  function Credits(c: Obj): JValue {
    OrElse(OrElse(Get(c, "credits"), Get(c, "minCredits")), JInt(0))
  }

  /** `f"{subject} {number}".strip()` */
  function CourseId(subject: JValue, number: JValue): string {
    Strip(PyStr(subject) + " " + PyStr(number))
  }

  /** A course id never has whitespace at either end, whatever the
      subject and number render as. */
  lemma CourseIdUnpadded(subject: JValue, number: JValue)
    ensures Unpadded(CourseId(subject, number))
  {
    StripSpec(PyStr(subject) + " " + PyStr(number));
  }

  function SectionCode(s: Obj): JValue {
    OrElse(OrElse(OrElse(Get(s, "sectionCode"), Get(s, "code")), Get(s, "registrationNumber")), JStr(""))
  }

  /** `f"{i.get('firstName','')} {i.get('lastName','')}".strip()` */
  function FullName(i: Obj): string {
    Strip(PyStr(GetOr(i, "firstName", JStr(""))) + " " + PyStr(GetOr(i, "lastName", JStr(""))))
  }

  /** The name an instructor record contributes, or `None` when the
      instructor is dropped. */
  function InstructorName(i: Obj): Option<JValue> {
    var name := OrElse(Get(i, "name"), JStr(FullName(i)));
    if Truthy(name) then Some(name) else None
  }

  /** The instructor list of a section: the names of the instructors that
      are not dropped, in input order. */
  function InstructorNames(items: seq<JValue>): seq<JValue>
    requires AllObjects(items)
  {
    if items == [] then []
    else
      var rest := InstructorNames(items[..|items| - 1]);
      match InstructorName(items[|items| - 1].fields)
      case Some(n) => rest + [n]
      case None => rest
  }

  function MeetingOut(m: Obj): JValue {
    JObj(map[
      "days" := OrElse(OrElse(Get(m, "days"), Get(m, "pattern")), JStr("")),
      "start" := Get(m, "startTime"),
      "end" := Get(m, "endTime"),
      "campus" := OrElse(Get(m, "campus"), Get(m, "campusName")),
      "building" := OrElse(Get(m, "building"), Get(m, "buildingName")),
      "room" := OrElse(Get(m, "room"), JStr("")),
      "modality" := OrElse(OrElse(Get(m, "instructionMode"), Get(m, "mode")), JStr(""))
    ])
  }

  function SectionOut(s: JValue): JValue
    requires WellShapedSection(s)
  {
    ChildrenAreObjects(s.fields, "instructors");
    ChildrenAreObjects(s.fields, "meetings");
    var ms := Children(s.fields, "meetings");
    JObj(map[
      "section" := SectionCode(s.fields),
      "instructors" := JList(InstructorNames(Children(s.fields, "instructors"))),
      "meetings" := JList(seq(|ms|, k requires 0 <= k < |ms| => MeetingOut(ms[k].fields)))
    ])
  }

  function CourseOut(c: JValue): JValue
    requires WellShapedCourse(c)
  {
    var subject := Subject(c.fields);
    var number := Number(c.fields);
    var ss := Children(c.fields, "sections");
    JObj(map[
      "id" := JStr(CourseId(subject, number)),
      "subject" := subject,
      "number" := JStr(PyStr(number)),
      "title" := Title(c.fields),
      "credits" := Credits(c.fields),
      "sections" := JList(seq(|ss|, k requires 0 <= k < |ss| => SectionOut(ss[k])))
    ])
  }

  /** The whole document `transform_to_quacs_schema` returns. */
  function Transform(raw: seq<JValue>): JValue
    requires WellShapedInput(raw)
  {
    JObj(map["courses" := JList(seq(|raw|, k requires 0 <= k < |raw| => CourseOut(raw[k])))])
  }

  // ---------------------------------------------------------------------
  // The transform as the Python runs it: loops that append.

  /** The instructor loop of one section: append each name that is truthy. */
  method CollectInstructors(items: seq<JValue>) returns (instrs: seq<JValue>)
    requires AllObjects(items)
    ensures instrs == InstructorNames(items)
  {
    instrs := [];
    for k := 0 to |items|
      invariant instrs == InstructorNames(items[..k])
    {
      assert items[..k + 1][..k] == items[..k];
      var name := OrElse(Get(items[k].fields, "name"), JStr(FullName(items[k].fields)));
      if Truthy(name) {
        instrs := instrs + [name];
      }
    }
    assert items[..|items|] == items;
  }

  /** The meeting loop of one section: one output meeting per input meeting. */
  method CollectMeetings(ms: seq<JValue>) returns (meetingsOut: seq<JValue>)
    requires AllObjects(ms)
    ensures |meetingsOut| == |ms|
    ensures forall j :: 0 <= j < |ms| ==> meetingsOut[j] == MeetingOut(ms[j].fields)
  {
    meetingsOut := [];
    for k := 0 to |ms|
      invariant |meetingsOut| == k
      invariant forall j :: 0 <= j < k ==> meetingsOut[j] == MeetingOut(ms[j].fields)
    {
      meetingsOut := meetingsOut + [MeetingOut(ms[k].fields)];
    }
  }

  /** One section: its code, the instructor loop and the meeting loop. */
  method TransformSection(s: JValue) returns (out: JValue)
    requires WellShapedSection(s)
    ensures out == SectionOut(s)
  {
    ChildrenAreObjects(s.fields, "instructors");
    ChildrenAreObjects(s.fields, "meetings");
    var secCode := SectionCode(s.fields);
    var instrs := CollectInstructors(Children(s.fields, "instructors"));
    var ms := Children(s.fields, "meetings");
    var meetingsOut := CollectMeetings(ms);
    assert meetingsOut == seq(|ms|, k requires 0 <= k < |ms| => MeetingOut(ms[k].fields));
    out := JObj(map["section" := secCode, "instructors" := JList(instrs), "meetings" := JList(meetingsOut)]);
  }

  /** One course: its fields and the section loop. */
  method TransformCourse(c: JValue) returns (out: JValue)
    requires WellShapedCourse(c)
    ensures out == CourseOut(c)
  {
    var subject := Subject(c.fields);
    var number := Number(c.fields);
    var title := Title(c.fields);
    var credits := Credits(c.fields);
    var sectionsOut: seq<JValue> := [];
    var ss := Children(c.fields, "sections");
    for k := 0 to |ss|
      invariant |sectionsOut| == k
      invariant forall j :: 0 <= j < k ==> sectionsOut[j] == SectionOut(ss[j])
    {
      var sec := TransformSection(ss[k]);
      sectionsOut := sectionsOut + [sec];
    }
    assert sectionsOut == seq(|ss|, k requires 0 <= k < |ss| => SectionOut(ss[k]));
    out := JObj(map[
      "id" := JStr(CourseId(subject, number)),
      "subject" := subject,
      "number" := JStr(PyStr(number)),
      "title" := title,
      "credits" := credits,
      "sections" := JList(sectionsOut)
    ]);
  }

  /** `transform_to_quacs_schema(raw_courses)`: one output course per input
      course, in input order, under the single key `"courses"`. */
  method TransformToQuacsSchema(raw: seq<JValue>) returns (doc: JValue)
    requires WellShapedInput(raw)
    ensures doc == Transform(raw)
    ensures doc.JObj? && doc.fields.Keys == {"courses"}
    ensures doc.fields["courses"].JList? && |doc.fields["courses"].items| == |raw|
    ensures forall j :: 0 <= j < |raw| ==> doc.fields["courses"].items[j] == CourseOut(raw[j])
  {
    var outCourses: seq<JValue> := [];
    for k := 0 to |raw|
      invariant |outCourses| == k
      invariant forall j :: 0 <= j < k ==> outCourses[j] == CourseOut(raw[j])
    {
      var course := TransformCourse(raw[k]);
      outCourses := outCourses + [course];
    }
    assert outCourses == seq(|raw|, k requires 0 <= k < |raw| => CourseOut(raw[k]));
    doc := JObj(map["courses" := JList(outCourses)]);
  }

  /** The transform has no hidden state: two runs on the same input return
      the same document. */
  method TransformTwice(raw: seq<JValue>) returns (first: JValue, second: JValue)
    requires WellShapedInput(raw)
    ensures first == second
  {
    first := TransformToQuacsSchema(raw);
    second := TransformToQuacsSchema(raw);
  }

  // ---------------------------------------------------------------------
  // Fallback order: the first truthy candidate wins, else the default.

  /** The course fields take the first truthy candidate key, in the order
      the source lists them, and otherwise `""` (or `0` for credits). */
  lemma CourseFallbacks(c: Obj)
    ensures Subject(c) ==
      if Truthy(Get(c, "subjectCode")) then Get(c, "subjectCode")
      else if Truthy(Get(c, "subject")) then Get(c, "subject")
      else JStr("")
    ensures Number(c) ==
      if Truthy(Get(c, "courseNumber")) then Get(c, "courseNumber")
      else if Truthy(Get(c, "code")) then Get(c, "code")
      else if Truthy(Get(c, "catalogNumber")) then Get(c, "catalogNumber")
      else JStr("")
    ensures Title(c) ==
      if Truthy(Get(c, "name")) then Get(c, "name")
      else if Truthy(Get(c, "title")) then Get(c, "title")
      else JStr("")
    ensures Credits(c) ==
      if Truthy(Get(c, "credits")) then Get(c, "credits")
      else if Truthy(Get(c, "minCredits")) then Get(c, "minCredits")
      else JInt(0)
  {
  }

  /** The section code is `sectionCode`, else `code`, else
      `registrationNumber`, else `""`. */
  lemma SectionCodeFallback(s: Obj)
    ensures SectionCode(s) ==
      if Truthy(Get(s, "sectionCode")) then Get(s, "sectionCode")
      else if Truthy(Get(s, "code")) then Get(s, "code")
      else if Truthy(Get(s, "registrationNumber")) then Get(s, "registrationNumber")
      else JStr("")
  {
  }

  // ---------------------------------------------------------------------
  // Courses.

  /** The output course fields, as the record is assembled. */
  lemma CourseFields(c: JValue)
    requires WellShapedCourse(c)
    ensures CourseOut(c).fields["subject"] == Subject(c.fields)
    ensures CourseOut(c).fields["number"] == JStr(PyStr(Number(c.fields)))
    ensures CourseOut(c).fields["title"] == Title(c.fields)
    ensures CourseOut(c).fields["credits"] == Credits(c.fields)
    ensures CourseOut(c).fields["id"] == JStr(CourseId(Subject(c.fields), Number(c.fields)))
  {
  }

  /** An output course has exactly the six QuACS keys; its number and id
      are strings; its id is the stripped `subject + " " + number` of its
      own fields and has no whitespace at either end. */
  lemma CourseShape(c: JValue)
    requires WellShapedCourse(c)
    ensures CourseOut(c).JObj?
    ensures CourseOut(c).fields.Keys == {"id", "subject", "number", "title", "credits", "sections"}
    ensures CourseOut(c).fields["number"].JStr? && CourseOut(c).fields["id"].JStr?
    ensures CourseOut(c).fields["id"].s == Strip(PyStr(CourseOut(c).fields["subject"]) + " " + CourseOut(c).fields["number"].s)
    ensures Unpadded(CourseOut(c).fields["id"].s)
  {
    CourseFields(c);
    CourseIdUnpadded(Subject(c.fields), Number(c.fields));
  }

  /** A course has one output section per input section, in order, and
      none when the input has no `"sections"` key. */
  lemma CourseSections(c: JValue)
    requires WellShapedCourse(c)
    ensures CourseOut(c).fields["sections"].JList?
    ensures |CourseOut(c).fields["sections"].items| == |Children(c.fields, "sections")|
    ensures (forall j :: 0 <= j < |Children(c.fields, "sections")| ==> CourseOut(c).fields["sections"].items[j] == SectionOut(Children(c.fields, "sections")[j]))
    ensures ("sections" !in c.fields ==> CourseOut(c).fields["sections"].items == [])
  {
  }

  /** The coerced course number: a string candidate is kept as it is, an
      integer one becomes its decimal rendering. */
  lemma CourseNumberText(c: JValue)
    requires WellShapedCourse(c)
    ensures CourseOut(c).fields["number"].JStr?
    ensures Number(c.fields).JStr? ==> CourseOut(c).fields["number"].s == Number(c.fields).s
    ensures Number(c.fields).JInt? ==> DecimalValue(CourseOut(c).fields["number"].s) == Number(c.fields).i
  {
    PyStrText(Number(c.fields));
  }

  /** None of the keys `keys` holds a truthy value in `o`. */
  predicate AllFalsy(o: Obj, keys: seq<string>) {
    forall j :: 0 <= j < |keys| ==> !Truthy(Get(o, keys[j]))
  }

  /** A course none of whose candidate keys holds a truthy value, and that
      has no `"sections"` key, comes out fully defaulted. */
  lemma CourseDefaults(c: JValue)
    requires c.JObj?
    requires AllFalsy(c.fields, ["subjectCode", "subject", "courseNumber", "code", "catalogNumber",
                                 "name", "title", "credits", "minCredits"])
    requires "sections" !in c.fields
    ensures WellShapedCourse(c)
    ensures CourseOut(c) == JObj(map[
      "id" := JStr(""), "subject" := JStr(""), "number" := JStr(""),
      "title" := JStr(""), "credits" := JInt(0), "sections" := JList([])])
  {
    var o := c.fields;
    var keys := ["subjectCode", "subject", "courseNumber", "code", "catalogNumber",
                 "name", "title", "credits", "minCredits"];
    assert !Truthy(Get(o, keys[0])) && !Truthy(Get(o, keys[1]));
    assert !Truthy(Get(o, keys[2])) && !Truthy(Get(o, keys[3])) && !Truthy(Get(o, keys[4]));
    assert !Truthy(Get(o, keys[5])) && !Truthy(Get(o, keys[6]));
    assert !Truthy(Get(o, keys[7])) && !Truthy(Get(o, keys[8]));
    CourseFallbacks(o);
    assert Subject(o) == JStr("") && Number(o) == JStr("");
    assert CourseId(JStr(""), JStr("")) == "";
    assert Children(o, "sections") == [];
    var r := CourseOut(c).fields;
    assert r["id"] == JStr("");
    assert r["subject"] == JStr("");
    assert r["number"] == JStr("");
    assert r["title"] == JStr("");
    assert r["credits"] == JInt(0);
    assert r["sections"] == JList([]);
  }

  /** When the subject and the number both render as non-empty text with
      no whitespace at either end, the id is exactly
      `subject + " " + number`. */
  lemma CourseIdJoins(subject: JValue, number: JValue)
    requires PyStr(subject) != [] && Unpadded(PyStr(subject))
    requires PyStr(number) != [] && Unpadded(PyStr(number))
    ensures CourseId(subject, number) == PyStr(subject) + " " + PyStr(number)
  {
    var t := PyStr(subject) + " " + PyStr(number);
    assert t[0] == PyStr(subject)[0];
    assert t[|t| - 1] == PyStr(number)[|PyStr(number)| - 1];
    StripUnpadded(t);
  }

  /** Subject `"CS"` and number `101` give the id `"CS 101"` and the number
      `"101"`; an empty subject and number give the empty id. */
  lemma CourseIdExamples()
    ensures CourseId(JStr("CS"), JInt(101)) == "CS 101"
    ensures PyStr(JInt(101)) == "101"
    ensures CourseId(JStr(""), JStr("")) == ""
  {
    assert NatDigits(101) == "101" by {
      assert NatDigits(10) == "10";
    }
    CourseIdJoins(JStr("CS"), JInt(101));
  }

  // ---------------------------------------------------------------------
  // Instructors.

  /** A truthy `name` is kept verbatim; otherwise the name is the stripped
      `firstName + " " + lastName` (missing parts read as `""`), and the
      instructor is dropped exactly when that is empty. */
  lemma InstructorNameRules(i: Obj)
    ensures Truthy(Get(i, "name")) ==> InstructorName(i) == Some(Get(i, "name"))
    ensures !Truthy(Get(i, "name")) && FullName(i) != [] ==> InstructorName(i) == Some(JStr(FullName(i)))
    ensures InstructorName(i) == None <==>
      !Truthy(Get(i, "name")) &&
      AllSpace(PyStr(GetOr(i, "firstName", JStr(""))) + " " + PyStr(GetOr(i, "lastName", JStr(""))))
    ensures InstructorName(i).Some? ==> Truthy(InstructorName(i).value)
  {
    StripSpec(PyStr(GetOr(i, "firstName", JStr(""))) + " " + PyStr(GetOr(i, "lastName", JStr(""))));
  }

  /** `{"name": "A. Smith"}` and `{"firstName": "A.", "lastName": "Smith"}`
      both give `"A. Smith"`; `{"firstName": "", "lastName": ""}` is
      dropped. */
  lemma InstructorNameExamples()
    ensures InstructorName(map["name" := JStr("A. Smith")]) == Some(JStr("A. Smith"))
    ensures InstructorName(map["firstName" := JStr("A."), "lastName" := JStr("Smith")]) == Some(JStr("A. Smith"))
    ensures InstructorName(map["firstName" := JStr(""), "lastName" := JStr("")]) == None
  {
    var named := map["firstName" := JStr("A."), "lastName" := JStr("Smith")];
    assert GetOr(named, "firstName", JStr("")) == JStr("A.");
    assert GetOr(named, "lastName", JStr("")) == JStr("Smith");
    CourseIdJoins(JStr("A."), JStr("Smith"));
    assert FullName(named) == "A. Smith";
    var blank := map["firstName" := JStr(""), "lastName" := JStr("")];
    assert GetOr(blank, "firstName", JStr("")) == JStr("");
    assert GetOr(blank, "lastName", JStr("")) == JStr("");
    assert FullName(blank) == "";
  }

  /** No output instructor is falsy (in particular none is `""`), and a
      section never has more instructors out than in. */
  lemma {:induction false} InstructorNamesTruthy(items: seq<JValue>)
    requires AllObjects(items)
    ensures |InstructorNames(items)| <= |items|
    ensures forall j :: 0 <= j < |InstructorNames(items)| ==> Truthy(InstructorNames(items)[j])
  {
    if items != [] {
      InstructorNamesTruthy(items[..|items| - 1]);
    }
  }

  /** When every instructor record has a truthy `name`, the output list is
      those names, one per instructor, in order. */
  lemma {:induction false} InstructorNamesVerbatim(items: seq<JValue>)
    requires AllObjects(items)
    requires forall k :: 0 <= k < |items| ==> Truthy(Get(items[k].fields, "name"))
    ensures |InstructorNames(items)| == |items|
    ensures forall k :: 0 <= k < |items| ==> InstructorNames(items)[k] == Get(items[k].fields, "name")
  {
    if items != [] {
      var n := |items|;
      var front := items[..n - 1];
      InstructorNamesVerbatim(front);
      var last := items[n - 1].fields;
      assert InstructorName(last) == Some(Get(last, "name"));
      var out := InstructorNames(items);
      assert out == InstructorNames(front) + [Get(last, "name")];
      forall k | 0 <= k < n
        ensures out[k] == Get(items[k].fields, "name")
      {
        if k < n - 1 {
          assert items[k] == front[k];
        }
      }
    }
  }

  // ---------------------------------------------------------------------
  // Meetings and sections.

  /** An output meeting has exactly seven keys. `start` and `end` are the
      raw `startTime` / `endTime` (null when absent); `campus` and
      `building` are the primary value when truthy, else the secondary
      key's raw value. */
  lemma MeetingShape(m: Obj)
    ensures MeetingOut(m).JObj?
    ensures MeetingOut(m).fields.Keys == {"days", "start", "end", "campus", "building", "room", "modality"}
    ensures MeetingOut(m).fields["start"] == Get(m, "startTime")
    ensures MeetingOut(m).fields["end"] == Get(m, "endTime")
    ensures ("startTime" !in m ==> MeetingOut(m).fields["start"] == JNull)
    ensures ("endTime" !in m ==> MeetingOut(m).fields["end"] == JNull)
    ensures MeetingOut(m).fields["campus"] == (if Truthy(Get(m, "campus")) then Get(m, "campus") else Get(m, "campusName"))
    ensures MeetingOut(m).fields["building"] == (if Truthy(Get(m, "building")) then Get(m, "building") else Get(m, "buildingName"))
  {
  }

  /** `days`, `room` and `modality` are their first truthy candidate, in
      the source's key order, or `""`: each is truthy or `""`. */
  lemma MeetingTextFields(m: Obj)
    ensures MeetingOut(m).fields["days"] == (if Truthy(Get(m, "days")) then Get(m, "days") else if Truthy(Get(m, "pattern")) then Get(m, "pattern") else JStr(""))
    ensures MeetingOut(m).fields["room"] == (if Truthy(Get(m, "room")) then Get(m, "room") else JStr(""))
    ensures MeetingOut(m).fields["modality"] == (if Truthy(Get(m, "instructionMode")) then Get(m, "instructionMode") else if Truthy(Get(m, "mode")) then Get(m, "mode") else JStr(""))
    ensures (Truthy(MeetingOut(m).fields["days"]) || MeetingOut(m).fields["days"] == JStr(""))
    ensures (Truthy(MeetingOut(m).fields["room"]) || MeetingOut(m).fields["room"] == JStr(""))
    ensures (Truthy(MeetingOut(m).fields["modality"]) || MeetingOut(m).fields["modality"] == JStr(""))
  {
  }

  /** An output section has exactly the keys `section`, `instructors` and
      `meetings`, with one meeting per input meeting, in order. */
  lemma SectionShape(s: JValue)
    requires WellShapedSection(s)
    ensures SectionOut(s).JObj?
    ensures SectionOut(s).fields.Keys == {"section", "instructors", "meetings"}
    ensures SectionOut(s).fields["section"] == SectionCode(s.fields)
    ensures SectionOut(s).fields["instructors"].JList?
    ensures |SectionOut(s).fields["instructors"].items| <= |Children(s.fields, "instructors")|
    ensures SectionOut(s).fields["meetings"].JList?
    ensures |SectionOut(s).fields["meetings"].items| == |Children(s.fields, "meetings")|
    ensures (forall j :: 0 <= j < |Children(s.fields, "meetings")| ==> Children(s.fields, "meetings")[j].JObj? && SectionOut(s).fields["meetings"].items[j] == MeetingOut(Children(s.fields, "meetings")[j].fields))
    ensures ("meetings" !in s.fields ==> SectionOut(s).fields["meetings"].items == [])
    ensures ("instructors" !in s.fields ==> SectionOut(s).fields["instructors"].items == [])
  {
    ChildrenAreObjects(s.fields, "instructors");
    InstructorNamesTruthy(Children(s.fields, "instructors"));
  }

  // ---------------------------------------------------------------------
  // An end-to-end example: one course with one section, one instructor
  // and one meeting.

  function SampleMeetingIn(): JValue {
    JObj(map[
      "days" := JStr("MWF"), "startTime" := JStr("09:00"), "endTime" := JStr("10:15"),
      "campus" := JStr("Main"), "room" := JStr("101")])
  }

  function SampleMeetingOut(): JValue {
    JObj(map[
      "days" := JStr("MWF"), "start" := JStr("09:00"), "end" := JStr("10:15"),
      "campus" := JStr("Main"), "building" := JNull, "room" := JStr("101"),
      "modality" := JStr("")])
  }

  function SampleSectionIn(): JValue {
    JObj(map[
      "sectionCode" := JStr("A"),
      "instructors" := JList([JObj(map["name" := JStr("J. Doe")])]),
      "meetings" := JList([SampleMeetingIn()])])
  }

  function SampleSectionOut(): JValue {
    JObj(map[
      "section" := JStr("A"),
      "instructors" := JList([JStr("J. Doe")]),
      "meetings" := JList([SampleMeetingOut()])])
  }

  function SampleCourseIn(): JValue {
    JObj(map[
      "subjectCode" := JStr("CS"), "courseNumber" := JStr("101"), "name" := JStr("Intro"),
      "credits" := JInt(4), "sections" := JList([SampleSectionIn()])])
  }

  function SampleCourseOut(): JValue {
    JObj(map[
      "id" := JStr("CS 101"), "subject" := JStr("CS"), "number" := JStr("101"),
      "title" := JStr("Intro"), "credits" := JInt(4),
      "sections" := JList([SampleSectionOut()])])
  }

  lemma SampleMeeting()
    ensures MeetingOut(SampleMeetingIn().fields) == SampleMeetingOut()
  {
    MeetingShape(SampleMeetingIn().fields);
    MeetingTextFields(SampleMeetingIn().fields);
  }

  lemma SampleInstructors()
    ensures InstructorNames([JObj(map["name" := JStr("J. Doe")])]) == [JStr("J. Doe")]
  {
    var i := JObj(map["name" := JStr("J. Doe")]);
    InstructorNameRules(i.fields);
    assert [i][..0] == [];
  }

  lemma SampleSection()
    ensures WellShapedSection(SampleSectionIn())
    ensures SectionOut(SampleSectionIn()) == SampleSectionOut()
  {
    var s := SampleSectionIn();
    assert Children(s.fields, "instructors") == [JObj(map["name" := JStr("J. Doe")])];
    assert Children(s.fields, "meetings") == [SampleMeetingIn()];
    SampleInstructors();
    SampleMeeting();
    SectionCodeFallback(s.fields);
    var r := SectionOut(s).fields;
    assert r["section"] == JStr("A");
    assert r["instructors"] == JList([JStr("J. Doe")]);
    assert r["meetings"] == JList([SampleMeetingOut()]);
  }

  lemma SampleCourseFields()
    ensures var o := SampleCourseIn().fields;
      && Subject(o) == JStr("CS") && Number(o) == JStr("101")
      && Title(o) == JStr("Intro") && Credits(o) == JInt(4)
      && CourseId(Subject(o), Number(o)) == "CS 101"
  {
    CourseFallbacks(SampleCourseIn().fields);
    CourseIdJoins(JStr("CS"), JStr("101"));
  }

  lemma SampleCourse()
    ensures WellShapedCourse(SampleCourseIn())
    ensures CourseOut(SampleCourseIn()) == SampleCourseOut()
  {
    var c := SampleCourseIn();
    assert Children(c.fields, "sections") == [SampleSectionIn()];
    SampleSection();
    SampleCourseFields();
    var ss := Children(c.fields, "sections");
    assert seq(|ss|, k requires 0 <= k < |ss| => SectionOut(ss[k])) == [SampleSectionOut()];
  }

  /** The one-course, one-section, one-instructor, one-meeting example
      comes out as course `"CS 101"` with section `"A"`, instructor
      `"J. Doe"` and a meeting on `"MWF"` from `"09:00"` to `"10:15"` with
      an empty modality. */
  lemma SampleTransform()
    ensures WellShapedInput([SampleCourseIn()])
    ensures Transform([SampleCourseIn()]) == JObj(map["courses" := JList([SampleCourseOut()])])
  {
    SampleCourse();
    assert Transform([SampleCourseIn()]).fields["courses"].items == [SampleCourseOut()];
  }
}
