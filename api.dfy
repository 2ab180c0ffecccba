/**
 * What the three routes share: the session check, the HTTP responses they
 * produce, and the key paths of the documents they read and write.
 */
module Api {
  import opened Wrappers
  import opened PyValue
  import opened Calendar
  import opened Firestore

  /** `token_data.get("uid")` passes `if not user_id`: present and non-empty. */
  predicate SignedIn(uid: Option<string>) {
    uid.Some? && uid.value != ""
  }

  /** The session check is Python's `if not user_id` on `token_data.get("uid")`: a missing uid is None, which is falsy. */
  lemma SignedInIsTruthy(uid: Option<string>)
    ensures SignedIn(uid) <==> IsTruthy(if uid.Some? then Str(uid.value) else Null)
  {
  }

  /** A JSON response body, or an `HTTPException`. */
  datatype Response = Ok(content: Doc) | HttpError(status: int, detail: string)

  /** A route's answer together with the store it leaves behind. */
  datatype Outcome = Outcome(resp: Response, store: Store)

  const Unauthorized: Response := HttpError(401, "Unauthorized: User ID not found")

  /** The answer to an exception the handler does not catch. */
  const InternalError: Response := HttpError(500, "Internal Server Error")

  function Message(status: string, message: string): Doc {
    map["status" := Str(status), "message" := Str(message)]
  }

  /** `users/{uid}` */
  function UserPath(uid: string): Path {
    ["users", uid]
  }

  /** `users/{uid}/dietPlan` */
  function DietPlanColl(uid: string): Path {
    ["users", uid, "dietPlan"]
  }

  /** `users/{uid}/dietPlan/{day}` */
  function DayPlanPath(uid: string, day: string): Path {
    DietPlanColl(uid) + [day]
  }

  /** `users/{uid}/dietLog/{year}/{month}/{day}/meals` */
  function MealsColl(uid: string, d: Date): Path
    requires Valid(d)
  {
    ["users", uid, "dietLog"] + DatePath(d) + ["meals"]
  }

  /** `users/{uid}/dietLog/{year}/{month}/{day}/meals/{category}` */
  function MealPath(uid: string, d: Date, category: string): (p: Path)
    requires Valid(d)
    ensures |p| == 8 && p[7] == category
  {
    MealsColl(uid, d) + [category]
  }

  /** `users/{uid}/aiAdjustment/{YYYY-MM-DD}` */
  function AdjustmentPath(uid: string, d: Date): Path
    requires Valid(d)
  {
    ["users", uid, "aiAdjustment", DateKey(d)]
  }

  /** Meal documents of different users, days or categories never share a path. */
  lemma MealPathInjective(u: string, d: Date, c: string, u': string, d': Date, c': string)
    requires Valid(d) && Valid(d')
    requires MealPath(u, d, c) == MealPath(u', d', c')
    ensures u == u' && d == d' && c == c'
  {
    var p, p' := MealPath(u, d, c), MealPath(u', d', c');
    assert p[1] == u && p'[1] == u';
    assert p[3..6] == DatePath(d) && p'[3..6] == DatePath(d');
    DatePathInjective(d, d');
  }
}
