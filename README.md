# Schedge to QuACS course transform, in Dafny

This project models the record-reshaping core of `scripts/fetch_nyu_schedge.py`
from nyu-quacs-data. The script fetches NYU course records from the Schedge
API and rewrites them as a small QuACS-style document. The modelled core is
`transform_to_quacs_schema`. It takes a list of schema-less course records
(nested JSON objects and lists) and builds `{"courses": [course]}`. A course
holds sections, and a section holds instructors and meetings. Each output
field is read from an ordered list of candidate keys with Python's `or`; the
instructor name is normalised; the course id is the stripped
`subject + " " + number`.

Layout:

- `text.dfy` (module `Text`): Python's `str.isspace`/`str.strip()` and the
  decimal rendering `str(n)` of an integer (with its inverse).
- `json.dfy` (module `Json`): the JSON value type `JValue`, Python truthiness,
  `dict.get`, the `or` operator, and `str()` of a value.
- `quacs.dfy` (module `Quacs`): which inputs the Python runs on without a
  `TypeError` or `AttributeError`, one function per output record
  (`MeetingOut`, `SectionOut`, `CourseOut`, `Transform`), the three nested loops as methods proved to
  build exactly those records, and the lemmas about the output.
- `schedge.dfy` (module `Schedge`): the API root, the endpoint map of
  `guess_schedge_endpoints` and the query parameters of `fetch_courses`.

The transform's nested `for` loops are methods: `TransformToQuacsSchema`
(courses), `TransformCourse` (sections of one course), and, inside
`TransformSection`, `CollectInstructors` and `CollectMeetings` (the two
loops over one section). Each accumulates its list by appending, as the
Python does, and its loop invariants tie the list to the processed prefix of
the input.

Behaviour of the code that the model keeps:

- The transform raises a `TypeError` when `sections`, `instructors` or
  `meetings` is `null`, a number or a boolean, and an `AttributeError` when
  one of them holds something other than objects. The model excludes exactly
  those inputs by its preconditions (`WellShapedInput`). An empty string or
  empty object in that position iterates zero times in Python, so the model
  accepts it and yields an empty list.
- A `name` is used only when it is truthy, so `"name": ""` falls back to
  first and last name. A truthy non-string `name` (say a number) is kept as
  it is, so an output instructor is any truthy JSON value, not necessarily a
  string.
- `campus` and `building` take the secondary key's raw value when the primary
  is falsy. That value can be any JSON value, not only a string or null.

## Model

| member | source | states |
|---|---|---|
| `Quacs.TransformToQuacsSchema` | scripts/fetch_nyu_schedge.py:61-116 | The document has `"courses"` as its only key, with one output course per input course, in input order, each equal to `CourseOut` of that input; the result is `Transform(raw)` |
| `Quacs.TransformCourse` | scripts/fetch_nyu_schedge.py:72-114 | The section loop plus the course fields build exactly `CourseOut(c)` |
| `Quacs.TransformSection` | scripts/fetch_nyu_schedge.py:80-105 | The section code, the instructor loop and the meeting loop build exactly `SectionOut(s)` |
| `Quacs.CollectInstructors` | scripts/fetch_nyu_schedge.py:81-86 | The loop that appends only truthy names builds exactly `InstructorNames` of the instructor records |
| `Quacs.CollectMeetings` | scripts/fetch_nyu_schedge.py:88-99 | The meeting loop builds one output meeting per input meeting, in order, each `MeetingOut` of its input |
| `Quacs.TransformTwice` | scripts/fetch_nyu_schedge.py:61-116 | Two runs on the same input give the same document (no hidden state) |
| `Quacs.CourseFallbacks` | scripts/fetch_nyu_schedge.py:72-75 | subject, number, title and credits are the first truthy candidate in the source's key order, else `""` (`0` for credits) |
| `Quacs.SectionCodeFallback` | scripts/fetch_nyu_schedge.py:80 | The section code is `sectionCode`, else `code`, else `registrationNumber` (first truthy), else `""` |
| `Quacs.CourseFields` | scripts/fetch_nyu_schedge.py:107-112 | The output subject, title and credits are the chosen candidates; the number is `str()` of the chosen number; the id is built from the chosen subject and number |
| `Quacs.CourseShape` | scripts/fetch_nyu_schedge.py:107-114 | An output course has exactly the keys id, subject, number, title, credits, sections; number and id are strings; id is the stripped `subject + " " + number` of the record's own fields and has no whitespace at either end |
| `Quacs.CourseIdUnpadded` | scripts/fetch_nyu_schedge.py:108 | Whatever subject and number render as, the id has no whitespace at either end |
| `Quacs.CourseSections` | scripts/fetch_nyu_schedge.py:78-113 | One output section per input section, in order, each `SectionOut` of its input; none when the `"sections"` key is absent |
| `Quacs.CourseNumberText` | scripts/fetch_nyu_schedge.py:110 | The output number is always a string: a string candidate unchanged, an integer candidate in decimal (reading it back gives the integer) |
| `Quacs.CourseDefaults` | scripts/fetch_nyu_schedge.py:72-114 | A course with no truthy candidate key and no `"sections"` key comes out as id `""`, subject `""`, number `""`, title `""`, credits `0`, sections `[]` |
| `Quacs.CourseIdJoins` | scripts/fetch_nyu_schedge.py:108 | When subject and number render as non-empty text without surrounding whitespace, the id is exactly `subject + " " + number` |
| `Quacs.CourseIdExamples` | scripts/fetch_nyu_schedge.py:108-110 | Subject `"CS"` and number `101` give id `"CS 101"` and number `"101"`; empty subject and number give id `""` |
| `Quacs.InstructorNameRules` | scripts/fetch_nyu_schedge.py:84-86 | A truthy `name` is kept verbatim; otherwise the name is the stripped `firstName + " " + lastName` with missing parts read as `""`; the instructor is dropped exactly when that text is all whitespace; a kept name is always truthy |
| `Quacs.InstructorNameExamples` | scripts/fetch_nyu_schedge.py:84-86 | `{"name": "A. Smith"}` and `{"firstName": "A.", "lastName": "Smith"}` give `"A. Smith"`; `{"firstName": "", "lastName": ""}` is dropped |
| `Quacs.InstructorNamesTruthy` | scripts/fetch_nyu_schedge.py:82-86 | No output instructor is falsy (so none is `""`), and the output list is no longer than the input list |
| `Quacs.InstructorNamesVerbatim` | scripts/fetch_nyu_schedge.py:82-86 | When every instructor has a truthy `name`, the output is exactly those names, one per instructor, in order |
| `Quacs.MeetingShape` | scripts/fetch_nyu_schedge.py:91-99 | An output meeting has exactly seven keys; start and end are the raw `startTime`/`endTime` (null when absent); campus and building are the primary value if truthy, else the secondary key's raw value |
| `Quacs.MeetingTextFields` | scripts/fetch_nyu_schedge.py:90-98 | days, room and modality are their first truthy candidate in the source's key order, else `""`; so each is truthy or `""` |
| `Quacs.SectionShape` | scripts/fetch_nyu_schedge.py:80-105 | An output section has exactly the keys section, instructors, meetings; the section is the chosen code; no more instructors out than in; one meeting per input meeting, in order; empty lists when the keys are absent |
| `Quacs.SampleMeeting` | scripts/fetch_nyu_schedge.py:89-99 | The sample meeting comes out with days `"MWF"`, start `"09:00"`, end `"10:15"`, campus `"Main"`, building null, room `"101"`, modality `""` |
| `Quacs.SampleInstructors` | scripts/fetch_nyu_schedge.py:82-86 | One instructor named `"J. Doe"` gives the list `["J. Doe"]` |
| `Quacs.SampleSection` | scripts/fetch_nyu_schedge.py:80-105 | The sample section comes out as section `"A"` with instructor `"J. Doe"` and the sample meeting |
| `Quacs.SampleCourseFields` | scripts/fetch_nyu_schedge.py:72-75 | The sample course's subject, number, title, credits and id are `"CS"`, `"101"`, `"Intro"`, `4`, `"CS 101"` |
| `Quacs.SampleCourse` | scripts/fetch_nyu_schedge.py:72-114 | The sample course comes out as the expected course record |
| `Quacs.SampleTransform` | scripts/fetch_nyu_schedge.py:61-116 | The one-course sample input is well shaped and transforms to exactly the expected document |
| `Json.PyStrText` | scripts/fetch_nyu_schedge.py:108-110 | `str()` of a string is the string; `str()` of an integer is a decimal text that reads back as the integer |
| `Text.TrimStartSpec` | scripts/fetch_nyu_schedge.py:84 | Trimming the front leaves a suffix of the input, removes only whitespace, and leaves no leading whitespace |
| `Text.TrimEndSpec` | scripts/fetch_nyu_schedge.py:84 | Trimming the back leaves a prefix of the input, removes only whitespace, and leaves no trailing whitespace |
| `Text.StripSpec` | scripts/fetch_nyu_schedge.py:84 | `strip()` returns the infix of its input between the leading and trailing whitespace runs; the result has no whitespace at either end and is empty exactly when the input is all whitespace |
| `Text.StripUnpadded` | scripts/fetch_nyu_schedge.py:108 | Stripping text without whitespace at either end leaves it unchanged |
| `Text.StripIdempotent` | scripts/fetch_nyu_schedge.py:108 | Stripping twice is the same as stripping once |
| `Text.IntToDecimal` | scripts/fetch_nyu_schedge.py:110 | `str(n)` is a canonical run of decimal digits (no leading zero), after a `-` for a negative `n` |
| `Text.NatDigits` | scripts/fetch_nyu_schedge.py:110 | The digits of a natural number are canonical, and are `"0"` exactly for zero |
| `Text.NatDigitsRoundTrip` | scripts/fetch_nyu_schedge.py:110 | Reading the digits of `n` back gives `n` |
| `Text.DecimalRoundTrip` | scripts/fetch_nyu_schedge.py:110 | Reading `str(n)` back gives `n` for every integer |
| `Text.DecimalInjective` | scripts/fetch_nyu_schedge.py:110 | Distinct integers give distinct course-number strings |
| `Schedge.GuessSchedgeEndpoints` | scripts/fetch_nyu_schedge.py:42-51 | The endpoints are exactly `subjects` and `courses`, each the API root plus `/v3/` plus its own name |
| `Schedge.CoursesQuery` | scripts/fetch_nyu_schedge.py:56 | The query has exactly the keys year, term, school, subject, each holding the argument of that name |
| `Schedge.CoursesRequest` | scripts/fetch_nyu_schedge.py:53-57 | `fetch_courses` asks the courses endpoint with the query built from its four arguments |
| `Schedge.CoursesRequestInjective` | scripts/fetch_nyu_schedge.py:56 | Distinct arguments give distinct requests |

## Left out

- `get_json` and the HTTP calls (`requests.get` with a 30-second timeout, `raise_for_status`, `.json()`): network I/O through a library outside the model. `CoursesRequest` gives only the URL and parameters.
- `main`: console output, the best-effort terms request inside `try`/`except`, directory creation and `json.dump(..., ensure_ascii=False, indent=2)` to the output file. These are I/O and library serialisation. The fixed output path is the constant `Schedge.OutFile`.
- The module-level `OUT_DIR.mkdir` run at import: a filesystem side effect.
- Floating-point numbers: `JValue` has integers only. Credits are passed through untouched, so no arithmetic is lost.
- The exceptions Python raises on wrong-shaped input: a `TypeError` when a collection is `null`, a number or a boolean, and an `AttributeError` when a course or a nested element is not an object (which includes the characters of a non-empty string and the keys of a non-empty object). These inputs are excluded by the preconditions instead of being modelled as errors, because the script has no error path of its own: the exception ends the run.
- `Json.PyStr`: it does not model `str()` of a non-empty list or object (Python's `repr` of the elements). It gives a fixed placeholder, because such a value would only appear as a course subject, a course number or a name part, and the element order of an object is not modelled.
- Key order of the output objects: Python dicts keep insertion order, which decides the order of keys in the written file; JSON objects are modelled as maps, so the model states which keys are present, not their order.
- The input is never modified: values in Dafny are immutable, so there is nothing to state beyond the methods taking their input by value.
