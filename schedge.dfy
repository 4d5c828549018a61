/** The fixed request the script sends to Schedge: the API root, the
    endpoints built from it, and the query parameters of the courses
    request. The HTTP calls themselves are not modelled. */
module Schedge {
  import opened Json

  const Base: string := "https://nyu.a1liu.com/api"
  const TermsEndpoint: string := Base + "/v3/terms"

  /** The slice the script fetches: Tandon (`EG`), Computer Science, fall 2025. */
  const MvpSchool: string := "EG"
  const MvpSubject: string := "CS"
  const Year: int := 2025
  const Term: string := "fa"

  /** The endpoint for each resource the script knows of: every endpoint
      is the API root, then `/v3/`, then the resource's own name. */
  function GuessSchedgeEndpoints(): (eps: map<string, string>)
    ensures eps.Keys == {"subjects", "courses"}
    ensures forall k :: k in eps ==> eps[k] == Base + "/v3/" + k
  {
    map["subjects" := Base + "/v3/subjects", "courses" := Base + "/v3/courses"]
  }

  /** The query parameters of the courses request: each of the four inputs
      under its own name, and nothing else. */
  function CoursesQuery(year: int, term: string, school: string, subject: string): (params: map<string, JValue>)
    ensures params.Keys == {"year", "term", "school", "subject"}
    ensures params["year"] == JInt(year) && params["term"] == JStr(term)
    ensures params["school"] == JStr(school) && params["subject"] == JStr(subject)
  {
    map["year" := JInt(year), "term" := JStr(term), "school" := JStr(school), "subject" := JStr(subject)]
  }

  /** The URL and parameters `fetch_courses` passes to the HTTP GET: the
      courses endpoint and the query built from its arguments. Distinct
      arguments give distinct requests. */
  function CoursesRequest(year: int, term: string, school: string, subject: string): (req: (string, map<string, JValue>))
    ensures req.0 == Base + "/v3/courses"
    ensures req.1 == CoursesQuery(year, term, school, subject)
  {
    (GuessSchedgeEndpoints()["courses"], CoursesQuery(year, term, school, subject))
  }

  lemma CoursesRequestInjective(y1: int, t1: string, c1: string, s1: string,
                                y2: int, t2: string, c2: string, s2: string)
    requires CoursesRequest(y1, t1, c1, s1) == CoursesRequest(y2, t2, c2, s2)
    ensures y1 == y2 && t1 == t2 && c1 == c2 && s1 == s2
  {
    var q1 := CoursesRequest(y1, t1, c1, s1).1;
    var q2 := CoursesRequest(y2, t2, c2, s2).1;
    assert q1["year"] == q2["year"] && q1["term"] == q2["term"];
    assert q1["school"] == q2["school"] && q1["subject"] == q2["subject"];
  }

  /** Where `main` writes the document. */
  const OutFile: string := "semester_data/2025/fa/courses.json"
}
