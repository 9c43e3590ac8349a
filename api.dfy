/** The client's API object, public/assets/js/api.js: the URLs it requests, how
    it picks the workout out of the response, and what addExercise reports. */
module Api {
  import opened Wrappers
  import opened WorkoutRoutes

  /** JavaScript truthiness of an optional string: present and not "". */
  predicate Truthy(s: Option<string>) {
    s.Some? && s.value != ""
  }

  /** The absolute path with the given segments, "/" before each. */
  function PathOf(segments: seq<string>): string {
    if segments == [] then "" else "/" + segments[0] + PathOf(segments[1..])
  }

  lemma {:induction false} PathOfConcat(a: seq<string>, b: seq<string>)
    ensures PathOf(a + b) == PathOf(a) + PathOf(b)
  {
    if a == [] {
      assert a + b == b;
    } else {
      assert (a + b)[0] == a[0];
      assert (a + b)[1..] == a[1..] + b;
      PathOfConcat(a[1..], b);
    }
  }

  lemma PathOfOne(x: string)
    ensures PathOf([x]) == "/" + x
  {
    assert [x][1..] == [];
  }

  /** The paths under the router's mount point /api/workouts. */
  lemma PathUnderWorkouts(rest: seq<string>)
    ensures PathOf(["api", "workouts"] + rest) == "/api/workouts" + PathOf(rest)
  {
    PathOfConcat(["api"], ["workouts"] + rest);
    PathOfConcat(["workouts"], rest);
    assert ["api", "workouts"] + rest == ["api"] + (["workouts"] + rest);
    PathOfOne("api");
    PathOfOne("workouts");
    assert PathOf(["api", "workouts"]) == "/api/workouts" by {
      PathOfConcat(["api"], ["workouts"]);
      assert ["api", "workouts"] == ["api"] + ["workouts"];
    }
  }

  /** Splitting a path at "/", as a router reads it. */
  function Split(s: string): (parts: seq<string>)
    ensures |parts| >= 1
  {
    if s == [] then [""]
    else
      var rest := Split(s[1..]);
      if s[0] == '/' then [""] + rest else [[s[0]] + rest[0]] + rest[1..]
  }

  predicate NoSlash(segments: seq<string>) {
    forall i :: 0 <= i < |segments| ==> '/' !in segments[i]
  }

  lemma {:induction false} SplitPrefix(a: string, b: string)
    requires '/' !in a
    ensures Split(a + b) == [a + Split(b)[0]] + Split(b)[1..]
  {
    if a != [] {
      assert (a + b)[0] == a[0];
      assert (a + b)[1..] == a[1..] + b;
      SplitPrefix(a[1..], b);
      assert [a[0]] + (a[1..] + Split(b)[0]) == a + Split(b)[0];
    } else {
      assert a + b == b;
      assert a + Split(b)[0] == Split(b)[0];
      assert Split(b) == [Split(b)[0]] + Split(b)[1..];
    }
  }

  /** Reading a path back: the segments come out again when none holds a "/". */
  lemma {:induction false} SplitPathOf(segments: seq<string>)
    requires NoSlash(segments)
    ensures Split(PathOf(segments)) == [""] + segments
  {
    if segments != [] {
      var rest := segments[1..];
      assert NoSlash(rest) by {
        forall i | 0 <= i < |rest| ensures '/' !in rest[i] { assert rest[i] == segments[i + 1]; }
      }
      SplitPathOf(rest);
      var p := PathOf(rest);
      assert PathOf(segments) == "/" + (segments[0] + p);
      SplitSlash(segments[0] + p);
      SplitPrefix(segments[0], p);
      assert Split(segments[0] + p) == [segments[0]] + rest by {
        assert Split(p)[0] == "" && Split(p)[1..] == rest;
        assert segments[0] + "" == segments[0];
      }
      assert segments == [segments[0]] + rest;
    }
  }

  lemma SplitSlash(t: string)
    ensures Split("/" + t) == [""] + Split(t)
  {
    assert ("/" + t)[0] == '/';
    assert ("/" + t)[1..] == t;
  }

  /** The URL getLastWorkout fetches. `workoutDate` is the ISO text of the
      page's date when it has one (a moment value is always truthy). */
  method QueryUrl(workoutId: Option<string>, workoutDate: Option<string>, operation: Option<string>)
    returns (queryUrl: string)
    ensures !(workoutDate.Some? && Truthy(operation)) ==> queryUrl == PathOf(["api", "workouts"])
    ensures workoutDate.Some? && Truthy(operation) ==>
      queryUrl == PathOf(["api", "workouts", workoutDate.value, operation.value]
                         + (if Truthy(workoutId) then [workoutId.value] else []))
  {
    PathUnderWorkouts([]);
    if workoutDate.Some? && Truthy(operation) {
      var d, op := workoutDate.value, operation.value;
      PathUnderWorkouts([d, op]);
      PathOfConcat([d], [op]);
      PathOfOne(d);
      PathOfOne(op);
      // Navigation query: date and operation segments, then the id segment if any.
      queryUrl := "/api/workouts/" + workoutDate.value + "/" + operation.value;
      if Truthy(workoutId) {
        queryUrl := queryUrl + "/" + workoutId.value;
        PathUnderWorkouts([d, op, workoutId.value]);
        PathOfConcat([d, op], [workoutId.value]);
        PathOfOne(workoutId.value);
        assert ["api", "workouts", d, op] + [workoutId.value] == ["api", "workouts"] + [d, op, workoutId.value];
      } else {
        assert ["api", "workouts", d, op] + [] == ["api", "workouts"] + [d, op];
      }
    } else {
      // No navigation request: the collection path itself.
      queryUrl := "/api/workouts";
    }
  }

  /** The URL deleteWorkout requests. */
  function DeleteUrl(id: string): (url: string)
    ensures url == PathOf(["api", "workouts", id])
  {
    PathUnderWorkouts([id]);
    PathOfOne(id);
    "/api/workouts/" + id
  }

  /** The URL getWorkoutsInRange requests, for the ISO text of the date. */
  function RangeUrl(isoDate: string): (url: string)
    ensures url == PathOf(["api", "workouts", "range", isoDate])
  {
    PathUnderWorkouts(["range", isoDate]);
    PathOfConcat(["range"], [isoDate]);
    PathOfOne("range");
    PathOfOne(isoDate);
    "/api/workouts/range/" + isoDate
  }

  /** A navigation URL splits back into its date, operation and (when sent)
      workout id, after the /api/workouts prefix. */
  lemma NavigationUrlSegments(date: string, operation: string, id: Option<string>)
    requires '/' !in date && '/' !in operation && (id.Some? ==> '/' !in id.value)
    ensures var segs := ["api", "workouts", date, operation] + (if Truthy(id) then [id.value] else []);
      Split(PathOf(segs)) == [""] + segs
  {
    var segs := ["api", "workouts", date, operation] + (if Truthy(id) then [id.value] else []);
    assert '/' !in "api" && '/' !in "workouts";
    assert NoSlash(segs);
    SplitPathOf(segs);
  }

  /** `json[json.length - 1]`: the last element, undefined for an empty array. */
  function LastElement<T>(json: seq<T>): (last: Option<T>)
    ensures last.None? <==> json == []
  {
    if json == [] then None else Some(json[|json| - 1])
  }

  /** The element appended last is the one picked; a one-element response
      (the latest-workout query is limited to 1) yields that element. */
  lemma LastOfAppend<T>(json: seq<T>, x: T)
    ensures LastElement(json + [x]) == Some(x)
    ensures LastElement([x]) == Some(x)
  {
  }

  /** How a fetch ended: it threw, or the server answered with a status. */
  datatype FetchOutcome = Threw | Responded(status: int)

  /** What addExercise returns, as written: false on 422 or a thrown error,
      true on every other answer. */
  function AddExerciseReported(outcome: FetchOutcome): (ok: bool)
    ensures ok <==> outcome.Responded? && outcome.status != 422
  {
    match outcome
    case Threw => false
    case Responded(status) => status != 422
  }

  /** The PUT handler never answers 422, so addExercise reports success for
      every refused append: an unsupported type (501) or a store rejection (500). */
  lemma AddExerciseReportsRefusalsAsSuccess(r: PutResponse)
    ensures AddExerciseReported(Responded(Status(r)))
  {
  }

  /** An unsupported exercise type is one such input. */
  lemma UnsupportedTypeReportedAsSuccess(body: WorkoutModel.ExerciseDoc)
    requires body.kind == Some("flexibility")
    ensures NewExercise(body).None? && AddExerciseReported(Responded(Status(NotImplemented)))
  {
  }

  /** The evidently intended result: success exactly for a 2xx answer. */
  function AddExerciseSucceeded(outcome: FetchOutcome): (ok: bool) {
    outcome.Responded? && 200 <= outcome.status < 300
  }

  /** With the intended mapping, the client reports success exactly when the
      handler ran the update, and failure for 501, 500 and thrown errors. */
  lemma AddExerciseSucceededMatchesHandler(r: PutResponse)
    ensures AddExerciseSucceeded(Responded(Status(r))) <==> r.UpdateResult?
    ensures !AddExerciseSucceeded(Threw)
  {
  }
}
