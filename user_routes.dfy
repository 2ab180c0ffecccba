/**
 * The profile and diet-plan routes: `add_data` writes a profile built with
 * defaults; `add_dietplan` validates each day plan and its meals with
 * Python truthiness and writes each day as soon as it passes.
 */
module UserRoutes {
  import opened Wrappers
  import opened PyValue
  import opened Firestore
  import opened Api

  const ProfileAdded: string := "Profile added successfully"
  const PlanAdded: string := "Diet plan added successfully"
  const PlanRequired: string := "Weekly diet plan is required"
  const DayNameRequired: string := "Day name is required for each day plan"
  const DayFieldsRequired: string := "Each day must include 'dailyCalorieTarget', 'macronutrientSplit', and 'mealPlan'"
  const MealFieldsRequired: string :=
    "Each meal must include 'type', 'calories', and 'nutrients' (e.g., {'carbs': x, 'protein': y, 'fats': z})"

  // ----- add_data -----

  /** The fields copied from the body as sent, None when absent. */
  const CopiedFields: set<string> :=
    {"name", "age", "weight", "height", "gender", "dietary_preferences", "goals", "activity_level"}

  /** The fields that default to an empty list. */
  const ListFields: set<string> := {"medical_conditions", "allergies_or_intolerances", "preferred_cuisines"}

  /** The profile document `add_data` builds from a request body: exactly the thirteen fields. */
  function Profile(body: Doc, createdAt: Value): (doc: Doc)
    ensures doc.Keys == CopiedFields + ListFields + {"meal_frequency", "created_at"}
  {
    map[
      "name" := Get(body, "name"),
      "age" := Get(body, "age"),
      "weight" := Get(body, "weight"),
      "height" := Get(body, "height"),
      "gender" := Get(body, "gender"),
      "dietary_preferences" := Get(body, "dietary_preferences"),
      "goals" := Get(body, "goals"),
      "activity_level" := Get(body, "activity_level"),
      "medical_conditions" := GetOr(body, "medical_conditions", List([])),
      "allergies_or_intolerances" := GetOr(body, "allergies_or_intolerances", List([])),
      "preferred_cuisines" := GetOr(body, "preferred_cuisines", List([])),
      "meal_frequency" := GetOr(body, "meal_frequency", Int(3)),
      "created_at" := createdAt
    ]
  }

  /** Name, age, weight and height are the body's values, or None when the body lacks them. */
  lemma ProfileCopiesMeasures(body: Doc, createdAt: Value)
    ensures Profile(body, createdAt)["name"] == (if "name" in body then body["name"] else Null)
    ensures Profile(body, createdAt)["age"] == (if "age" in body then body["age"] else Null)
    ensures Profile(body, createdAt)["weight"] == (if "weight" in body then body["weight"] else Null)
    ensures Profile(body, createdAt)["height"] == (if "height" in body then body["height"] else Null)
  {
  }

  /** Gender, dietary preferences, goals and activity level are the body's values, or None when the body lacks them. */
  lemma ProfileCopiesPreferences(body: Doc, createdAt: Value)
    ensures Profile(body, createdAt)["gender"] == (if "gender" in body then body["gender"] else Null)
    ensures Profile(body, createdAt)["dietary_preferences"] == (if "dietary_preferences" in body then body["dietary_preferences"] else Null)
    ensures Profile(body, createdAt)["goals"] == (if "goals" in body then body["goals"] else Null)
    ensures Profile(body, createdAt)["activity_level"] == (if "activity_level" in body then body["activity_level"] else Null)
  {
  }

  /**
   * The three lists default to [] and `meal_frequency` to 3; each takes the
   * body's value whenever it has one; `created_at` is the request's stamp.
   */
  lemma ProfileDefaults(body: Doc, createdAt: Value)
    ensures Profile(body, createdAt)["medical_conditions"] == (if "medical_conditions" in body then body["medical_conditions"] else List([]))
    ensures Profile(body, createdAt)["allergies_or_intolerances"] == (if "allergies_or_intolerances" in body then body["allergies_or_intolerances"] else List([]))
    ensures Profile(body, createdAt)["preferred_cuisines"] == (if "preferred_cuisines" in body then body["preferred_cuisines"] else List([]))
    ensures Profile(body, createdAt)["meal_frequency"] == (if "meal_frequency" in body then body["meal_frequency"] else Int(3))
    ensures Profile(body, createdAt)["created_at"] == createdAt
  {
  }

  /** What `add_data` answers and the store it leaves: success exactly when signed in, and then one more path at most. */
  function AddDataResult(store: Store, uid: Option<string>, body: Doc, createdAt: Value): (r: Outcome)
    ensures r.resp.Ok? <==> SignedIn(uid)
    ensures r.store.Keys == store.Keys + (if SignedIn(uid) then {UserPath(uid.value)} else {})
  {
    if !SignedIn(uid) then Outcome(Unauthorized, store)
    else Outcome(Ok(Message("success", ProfileAdded)), store[UserPath(uid.value) := Profile(body, createdAt)])
  }

  /** Without a uid nothing is written; with one, the profile replaces the user document whole and nothing else changes. */
  lemma AddDataReplaces(store: Store, uid: Option<string>, body: Doc, createdAt: Value)
    ensures var r := AddDataResult(store, uid, body, createdAt);
      && (!SignedIn(uid) ==> r == Outcome(Unauthorized, store))
      && (SignedIn(uid) ==> r.resp.Ok? && UserPath(uid.value) in r.store && r.store[UserPath(uid.value)] == Profile(body, createdAt))
      && (forall p :: p in store && (!SignedIn(uid) || p != UserPath(uid.value)) ==> p in r.store && r.store[p] == store[p])
  {
  }

  /** `add_data` */
  method AddDataRoute(db: DocumentStore, uid: Option<string>, body: Doc, createdAt: Value) returns (resp: Response)
    modifies db
    ensures Outcome(resp, db.docs) == AddDataResult(old(db.docs), uid, body, createdAt)
  {
    if !SignedIn(uid) {
      return Unauthorized;
    }
    var profile := Profile(body, createdAt);
    db.Set(UserPath(uid.value), profile);
    resp := Ok(Message("success", ProfileAdded));
  }

  // ----- add_dietplan: meals -----

  /** A meal passes when it is a dict whose `type`, `calories` and `nutrients` are all truthy. */
  predicate MealOk(meal: Value)
    ensures MealOk(meal) ==> meal.Dict? && "type" in meal.fields && "calories" in meal.fields && "nutrients" in meal.fields
  {
    meal.Dict? && IsTruthy(Get(meal.fields, "type")) && IsTruthy(Get(meal.fields, "calories"))
    && IsTruthy(Get(meal.fields, "nutrients"))
  }

  /** The answer a failing meal produces: 400 for a missing field, 500 when it is not a dict (`.get` raises). */
  function MealError(meal: Value): (r: Response)
    ensures r.HttpError? && (r.status == 400 <==> meal.Dict?)
    ensures r == HttpError(400, MealFieldsRequired) || r == InternalError
  {
    if meal.Dict? then HttpError(400, MealFieldsRequired) else InternalError
  }

  /** The index of the first meal that fails, or `|meals|` when all pass. */
  function FirstBadMeal(meals: seq<Value>): (k: nat)
    ensures k <= |meals|
    ensures forall i :: 0 <= i < k ==> MealOk(meals[i])
    ensures k < |meals| ==> !MealOk(meals[k])
  {
    if meals == [] || !MealOk(meals[0]) then 0 else 1 + FirstBadMeal(meals[1..])
  }

  /**
   * What `for meal in meal_plan` decides for a truthy `mealPlan`: None when
   * every meal passes, else the first failing meal's answer; a value that
   * is not a list fails at once (its elements, if any, have no `.get`).
   */
  function MealsVerdict(mealPlan: Value): (r: Option<Response>)
    ensures r.None? <==> mealPlan.List? && forall i :: 0 <= i < |mealPlan.items| ==> MealOk(mealPlan.items[i])
    ensures r.Some? ==> r.value == InternalError || r.value == HttpError(400, MealFieldsRequired)
  {
    if !mealPlan.List? then Some(InternalError)
    else if FirstBadMeal(mealPlan.items) == |mealPlan.items| then None
    else Some(MealError(mealPlan.items[FirstBadMeal(mealPlan.items)]))
  }

  /** The meal loop of `add_dietplan`. */
  method ValidateMeals(mealPlan: Value) returns (err: Option<Response>)
    ensures err == MealsVerdict(mealPlan)
    ensures err.None? <==> mealPlan.List? && forall i :: 0 <= i < |mealPlan.items| ==> MealOk(mealPlan.items[i])
  {
    if !mealPlan.List? {
      return Some(InternalError);
    }
    var meals := mealPlan.items;
    var i := 0;
    while i < |meals|
      invariant 0 <= i <= |meals|
      invariant forall j :: 0 <= j < i ==> MealOk(meals[j])
    {
      var meal := meals[i];
      if !meal.Dict? {
        FirstBadMealIs(meals, i);
        return Some(InternalError);
      }
      if !IsTruthy(Get(meal.fields, "type")) || !IsTruthy(Get(meal.fields, "calories"))
         || !IsTruthy(Get(meal.fields, "nutrients")) {
        FirstBadMealIs(meals, i);
        return Some(HttpError(400, MealFieldsRequired));
      }
      i := i + 1;
    }
    FirstBadMealIs(meals, |meals|);
    err := None;
  }

  /** Any index before which every meal passes and at which one fails (or the list ends) is the first failure. */
  lemma {:induction false} FirstBadMealIs(meals: seq<Value>, k: nat)
    requires k <= |meals|
    requires forall i :: 0 <= i < k ==> MealOk(meals[i])
    requires k < |meals| ==> !MealOk(meals[k])
    ensures FirstBadMeal(meals) == k
    decreases k
  {
    if k > 0 {
      FirstBadMealIs(meals[1..], k - 1);
    }
  }

  // ----- add_dietplan: days -----

  datatype DayVerdict =
    | Accepted(name: string, target: Value, split: Value, mealPlan: Value)
    | Rejected(resp: Response)

  /** The checks one day plan goes through, in the order the handler makes them. */
  function CheckDay(dayPlan: Value): (v: DayVerdict)
    ensures v.Accepted? ==> v.name != "" && IsTruthy(v.target) && IsTruthy(v.split) && v.mealPlan.List?
    ensures v.Rejected? ==> v.resp.HttpError? && (v.resp.status == 400 || v.resp == InternalError)
  {
    if !dayPlan.Dict? then Rejected(InternalError)
    else
      var day := Get(dayPlan.fields, "day");
      var target := Get(dayPlan.fields, "dailyCalorieTarget");
      var split := Get(dayPlan.fields, "macronutrientSplit");
      var mealPlan := Get(dayPlan.fields, "mealPlan");
      if !IsTruthy(day) then Rejected(HttpError(400, DayNameRequired))
      else if !IsTruthy(target) || !IsTruthy(split) || !IsTruthy(mealPlan) then Rejected(HttpError(400, DayFieldsRequired))
      else if MealsVerdict(mealPlan).Some? then Rejected(MealsVerdict(mealPlan).value)
      else if !day.Str? then Rejected(InternalError)
      else Accepted(day.s, target, split, mealPlan)
  }

  /** The document stored for an accepted day. */
  function DayDoc(v: DayVerdict, lastUpdated: Value): (d: Doc)
    requires v.Accepted?
    ensures d.Keys == {"dailyCalorieTarget", "macronutrientSplit", "mealPlan", "lastUpdated"}
    ensures d["lastUpdated"] == lastUpdated
  {
    map[
      "dailyCalorieTarget" := v.target,
      "macronutrientSplit" := v.split,
      "mealPlan" := v.mealPlan,
      "lastUpdated" := lastUpdated
    ]
  }

  /** The day-level part of the loop body, up to the point where the day is written. */
  method ValidateDay(dayPlan: Value) returns (v: DayVerdict)
    ensures v == CheckDay(dayPlan)
  {
    if !dayPlan.Dict? {
      return Rejected(InternalError);
    }
    var day := Get(dayPlan.fields, "day");
    if !IsTruthy(day) {
      return Rejected(HttpError(400, DayNameRequired));
    }
    var target := Get(dayPlan.fields, "dailyCalorieTarget");
    var split := Get(dayPlan.fields, "macronutrientSplit");
    var mealPlan := Get(dayPlan.fields, "mealPlan");
    if !IsTruthy(target) || !IsTruthy(split) || !IsTruthy(mealPlan) {
      return Rejected(HttpError(400, DayFieldsRequired));
    }
    var err := ValidateMeals(mealPlan);
    if err.Some? {
      return Rejected(err.value);
    }
    if !day.Str? {
      return Rejected(InternalError);
    }
    v := Accepted(day.s, target, split, mealPlan);
  }

  /** The verdicts on a list of day plans, in order. */
  function Verdicts(days: seq<Value>): (vs: seq<DayVerdict>)
    ensures |vs| == |days|
  {
    seq(|days|, i requires 0 <= i < |days| => CheckDay(days[i]))
  }

  /** The index of the first rejected verdict, or `|vs|` when all are accepted. */
  function FirstRejected(vs: seq<DayVerdict>): (k: nat)
    ensures k <= |vs|
    ensures forall i :: 0 <= i < k ==> vs[i].Accepted?
    ensures k < |vs| ==> vs[k].Rejected?
  {
    if vs == [] || vs[0].Rejected? then 0 else 1 + FirstRejected(vs[1..])
  }

  /** Any index before which every verdict is an acceptance and at which one is a rejection (or the list ends) is the first rejection. */
  lemma {:induction false} FirstRejectedIs(vs: seq<DayVerdict>, k: nat)
    requires k <= |vs|
    requires forall i :: 0 <= i < k ==> vs[i].Accepted?
    requires k < |vs| ==> vs[k].Rejected?
    ensures FirstRejected(vs) == k
    decreases k
  {
    if k > 0 {
      FirstRejectedIs(vs[1..], k - 1);
    }
  }

  predicate AllAccepted(vs: seq<DayVerdict>) {
    forall i :: 0 <= i < |vs| ==> vs[i].Accepted?
  }

  /**
   * The store after writing the accepted days one after another, each under
   * its day name; day `i` is stamped with the `i`-th clock reading. Nothing
   * is removed, and every day's path holds a document.
   */
  function StoreDays(store: Store, uid: string, vs: seq<DayVerdict>, clock: nat -> Value): (r: Store)
    requires AllAccepted(vs)
    ensures store.Keys <= r.Keys
    ensures forall i :: 0 <= i < |vs| ==> DayPlanPath(uid, vs[i].name) in r
  {
    if vs == [] then store
    else
      var v := vs[|vs| - 1];
      StoreDays(store, uid, vs[..|vs| - 1], clock)[DayPlanPath(uid, v.name) := DayDoc(v, clock(|vs| - 1))]
  }

  /** Writing one more accepted day extends the fold by one update. */
  lemma StoreDaysSnoc(store: Store, uid: string, vs: seq<DayVerdict>, i: nat, clock: nat -> Value)
    requires i < |vs|
    requires forall j :: 0 <= j <= i ==> vs[j].Accepted?
    ensures StoreDays(store, uid, vs[..i + 1], clock)
         == StoreDays(store, uid, vs[..i], clock)[DayPlanPath(uid, vs[i].name) := DayDoc(vs[i], clock(i))]
  {
    assert vs[..i + 1][..i] == vs[..i];
    assert vs[..i + 1][i] == vs[i];
  }

  /**
   * What `add_dietplan` answers and the store it leaves; `clock(i)` is what
   * the `i`-th `datetime.now()` of the request returns. Nothing is removed,
   * and only a signed-in caller can succeed.
   */
  function DietPlanResult(store: Store, uid: Option<string>, body: Doc, clock: nat -> Value): (r: Outcome)
    ensures store.Keys <= r.store.Keys
    ensures r.resp.Ok? ==> SignedIn(uid)
  {
    if !SignedIn(uid) then Outcome(Unauthorized, store)
    else
      var plan := Get(body, "weeklyDietPlan");
      if !IsTruthy(plan) then Outcome(HttpError(400, PlanRequired), store)
      else if !plan.List? then Outcome(InternalError, store)
      else
        WriteDays(store, uid.value, Verdicts(plan.items), clock)
  }

  /** The day loop's outcome: the days up to the first rejection are written, and the answer is that rejection or success. */
  function WriteDays(store: Store, uid: string, vs: seq<DayVerdict>, clock: nat -> Value): (r: Outcome)
    ensures store.Keys <= r.store.Keys
    ensures r.resp.Ok? || exists i :: 0 <= i < |vs| && vs[i].Rejected? && r.resp == vs[i].resp
  {
    var k := FirstRejected(vs);
    var written := StoreDays(store, uid, vs[..k], clock);
    if k < |vs| then Outcome(vs[k].resp, written)
    else Outcome(Ok(Message("success", PlanAdded)), written)
  }

  /** `add_dietplan` */
  method AddDietPlanRoute(db: DocumentStore, uid: Option<string>, body: Doc, clock: nat -> Value) returns (resp: Response)
    modifies db
    ensures Outcome(resp, db.docs) == DietPlanResult(old(db.docs), uid, body, clock)
  {
    if !SignedIn(uid) {
      return Unauthorized;
    }
    var plan := Get(body, "weeklyDietPlan");
    if !IsTruthy(plan) {
      return HttpError(400, PlanRequired);
    }
    if !plan.List? {
      return InternalError;
    }
    var days := plan.items;
    ghost var vs := Verdicts(days);
    ghost var s0 := db.docs;
    var i := 0;
    while i < |days|
      invariant 0 <= i <= |days|
      invariant forall j :: 0 <= j < i ==> vs[j].Accepted?
      invariant db.docs == StoreDays(s0, uid.value, vs[..i], clock)
    {
      var v := ValidateDay(days[i]);
      assert v == vs[i];
      if v.Rejected? {
        FirstRejectedIs(vs, i);
        return v.resp;
      }
      StoreDaysSnoc(s0, uid.value, vs, i, clock);
      db.Set(DayPlanPath(uid.value, v.name), DayDoc(v, clock(i)));
      i := i + 1;
    }
    FirstRejectedIs(vs, |vs|);
    assert vs[..|vs|] == vs;
    resp := Ok(Message("success", PlanAdded));
  }

  // ----- add_dietplan: properties -----

  /**
   * A day plan is accepted exactly when it is a dict whose `day` is a
   * non-empty string, whose target, split and meal plan are truthy, and
   * whose meal plan is a list of meals that all pass.
   */
  lemma CheckDayAccepts(dayPlan: Value)
    ensures CheckDay(dayPlan).Accepted? <==>
      && dayPlan.Dict?
      && Get(dayPlan.fields, "day").Str? && Get(dayPlan.fields, "day").s != ""
      && IsTruthy(Get(dayPlan.fields, "dailyCalorieTarget"))
      && IsTruthy(Get(dayPlan.fields, "macronutrientSplit"))
      && Get(dayPlan.fields, "mealPlan").List?
      && Get(dayPlan.fields, "mealPlan").items != []
      && (forall i :: 0 <= i < |Get(dayPlan.fields, "mealPlan").items| ==> MealOk(Get(dayPlan.fields, "mealPlan").items[i]))
    ensures CheckDay(dayPlan).Accepted? ==>
      && CheckDay(dayPlan).name == Get(dayPlan.fields, "day").s
      && CheckDay(dayPlan).target == Get(dayPlan.fields, "dailyCalorieTarget")
      && CheckDay(dayPlan).split == Get(dayPlan.fields, "macronutrientSplit")
      && CheckDay(dayPlan).mealPlan == Get(dayPlan.fields, "mealPlan")
  {
  }

  /**
   * A meal whose `calories` is 0 makes its day fail, whatever else the day
   * holds. When no meal before it is a non-dict, the answer is a 400; when
   * moreover the day-level checks pass, it is the meal-fields 400.
   */
  lemma ZeroCaloriesRejected(dayPlan: Value, i: nat)
    requires dayPlan.Dict? && Get(dayPlan.fields, "mealPlan").List?
    requires i < |Get(dayPlan.fields, "mealPlan").items|
    requires Get(dayPlan.fields, "mealPlan").items[i].Dict?
    requires Get(Get(dayPlan.fields, "mealPlan").items[i].fields, "calories") == Int(0)
    ensures CheckDay(dayPlan).Rejected?
    ensures (forall j :: 0 <= j < i ==> Get(dayPlan.fields, "mealPlan").items[j].Dict?) ==>
      CheckDay(dayPlan).resp.HttpError? && CheckDay(dayPlan).resp.status == 400
    ensures ((forall j :: 0 <= j < i ==> Get(dayPlan.fields, "mealPlan").items[j].Dict?)
             && IsTruthy(Get(dayPlan.fields, "day")) && IsTruthy(Get(dayPlan.fields, "dailyCalorieTarget"))
             && IsTruthy(Get(dayPlan.fields, "macronutrientSplit")))
      ==> CheckDay(dayPlan) == Rejected(HttpError(400, MealFieldsRequired))
  {
    CheckDayAccepts(dayPlan);
    var meals := Get(dayPlan.fields, "mealPlan").items;
    if forall j :: 0 <= j < i ==> meals[j].Dict? {
      var k := FirstBadMeal(meals);
      assert k <= i;
      assert meals[k].Dict?;
    }
  }

  /** A path that no accepted day names keeps its document. */
  lemma {:induction false} StoreDaysFrame(store: Store, uid: string, vs: seq<DayVerdict>, clock: nat -> Value, p: Path)
    requires AllAccepted(vs)
    requires forall i :: 0 <= i < |vs| ==> p != DayPlanPath(uid, vs[i].name)
    ensures p in StoreDays(store, uid, vs, clock) <==> p in store
    ensures p in store ==> StoreDays(store, uid, vs, clock)[p] == store[p]
    decreases |vs|
  {
    if vs != [] {
      StoreDaysFrame(store, uid, vs[..|vs| - 1], clock, p);
    }
  }

  /**
   * Each accepted day's path holds the document of the last day with that
   * name, with exactly the four day-plan keys: a repeated day name
   * overwrites the earlier one.
   */
  lemma {:induction false} StoreDaysLastWins(store: Store, uid: string, vs: seq<DayVerdict>, clock: nat -> Value, i: nat)
    requires AllAccepted(vs)
    requires i < |vs|
    requires forall j :: i < j < |vs| ==> vs[j].name != vs[i].name
    ensures DayPlanPath(uid, vs[i].name) in StoreDays(store, uid, vs, clock)
    ensures StoreDays(store, uid, vs, clock)[DayPlanPath(uid, vs[i].name)] == DayDoc(vs[i], clock(i))
    ensures StoreDays(store, uid, vs, clock)[DayPlanPath(uid, vs[i].name)].Keys
         == {"dailyCalorieTarget", "macronutrientSplit", "mealPlan", "lastUpdated"}
    decreases |vs|
  {
    var n := |vs| - 1;
    if i < n {
      assert DayPlanPath(uid, vs[n].name)[3] != DayPlanPath(uid, vs[i].name)[3];
      StoreDaysLastWins(store, uid, vs[..n], clock, i);
    }
  }

  /** A rejected day answers with one of the three 400s, or with a 500 when a value has the wrong type. */
  lemma RejectionIsError(dayPlan: Value)
    ensures CheckDay(dayPlan).Rejected? ==>
      (CheckDay(dayPlan).resp in
        {HttpError(400, DayNameRequired), HttpError(400, DayFieldsRequired), HttpError(400, MealFieldsRequired), InternalError})
  {
  }

  /** A day plan whose `day` is falsy is refused with 400 and the day-name message. */
  lemma DayNameRejected(dayPlan: Value)
    requires dayPlan.Dict? && !IsTruthy(Get(dayPlan.fields, "day"))
    ensures CheckDay(dayPlan) == Rejected(HttpError(400, DayNameRequired))
  {
  }

  /** A named day plan with a falsy target, split or meal plan is refused with 400 and the day-fields message. */
  lemma DayFieldsRejected(dayPlan: Value)
    requires dayPlan.Dict? && IsTruthy(Get(dayPlan.fields, "day"))
    requires !IsTruthy(Get(dayPlan.fields, "dailyCalorieTarget")) || !IsTruthy(Get(dayPlan.fields, "macronutrientSplit"))
          || !IsTruthy(Get(dayPlan.fields, "mealPlan"))
    ensures CheckDay(dayPlan) == Rejected(HttpError(400, DayFieldsRequired))
  {
  }

  /**
   * In a day plan that passes the day-level checks, the first failing meal,
   * when it is a dict, gets the day refused with 400 and the meal-fields message.
   */
  lemma MealFieldsRejected(dayPlan: Value, i: nat)
    requires dayPlan.Dict? && IsTruthy(Get(dayPlan.fields, "day"))
    requires IsTruthy(Get(dayPlan.fields, "dailyCalorieTarget")) && IsTruthy(Get(dayPlan.fields, "macronutrientSplit"))
    requires Get(dayPlan.fields, "mealPlan").List? && i < |Get(dayPlan.fields, "mealPlan").items|
    requires forall j :: 0 <= j < i ==> MealOk(Get(dayPlan.fields, "mealPlan").items[j])
    requires Get(dayPlan.fields, "mealPlan").items[i].Dict? && !MealOk(Get(dayPlan.fields, "mealPlan").items[i])
    ensures CheckDay(dayPlan) == Rejected(HttpError(400, MealFieldsRequired))
  {
    FirstBadMealIs(Get(dayPlan.fields, "mealPlan").items, i);
  }

  /** The day loop succeeds exactly when every day is accepted, and then it has written them all. */
  lemma WriteDaysSucceeds(store: Store, uid: string, vs: seq<DayVerdict>, clock: nat -> Value)
    requires forall i :: 0 <= i < |vs| && vs[i].Rejected? ==> vs[i].resp.HttpError?
    ensures WriteDays(store, uid, vs, clock).resp.Ok? <==> AllAccepted(vs)
    ensures AllAccepted(vs) ==> WriteDays(store, uid, vs, clock).store == StoreDays(store, uid, vs, clock)
  {
    var k := FirstRejected(vs);
    if k == |vs| {
      assert vs[..k] == vs;
    }
  }

  /**
   * When verdict `k` is the first rejection, the loop answers with it, the
   * days before it are all stored, and nothing else changes.
   */
  lemma WriteDaysStopsAt(store: Store, uid: string, vs: seq<DayVerdict>, clock: nat -> Value, k: nat)
    requires k < |vs|
    requires forall i :: 0 <= i < k ==> vs[i].Accepted?
    requires vs[k].Rejected?
    ensures var r := WriteDays(store, uid, vs, clock);
      && r.resp == vs[k].resp
      && (forall i :: 0 <= i < k ==> DayPlanPath(uid, vs[i].name) in r.store)
      && (forall p :: p in store && (forall i :: 0 <= i < k ==> p != DayPlanPath(uid, vs[i].name))
            ==> p in r.store && r.store[p] == store[p])
    ensures AllAccepted(vs[..k]) && WriteDays(store, uid, vs, clock).store == StoreDays(store, uid, vs[..k], clock)
  {
    FirstRejectedIs(vs, k);
    var pre := vs[..k];
    var r := WriteDays(store, uid, vs, clock);
    assert r.store == StoreDays(store, uid, pre, clock);
    assert forall i :: 0 <= i < k ==> pre[i] == vs[i];
    forall p | p in store && (forall i :: 0 <= i < k ==> p != DayPlanPath(uid, vs[i].name))
      ensures p in r.store && r.store[p] == store[p]
    {
      StoreDaysFrame(store, uid, pre, clock, p);
    }
  }

  /** A missing or falsy `weeklyDietPlan` (None, [], {}, "", 0, False) is refused with 400 before anything is written. */
  lemma DietPlanRequired(store: Store, uid: string, body: Doc, clock: nat -> Value)
    requires uid != ""
    requires !IsTruthy(Get(body, "weeklyDietPlan"))
    ensures DietPlanResult(store, Some(uid), body, clock) == Outcome(HttpError(400, PlanRequired), store)
  {
  }

  /**
   * `add_dietplan` succeeds exactly when the caller is signed in and sends
   * a non-empty list of day plans that all pass; it then has written
   * every day.
   */
  lemma DietPlanSucceeds(store: Store, uid: Option<string>, body: Doc, clock: nat -> Value)
    ensures var r := DietPlanResult(store, uid, body, clock);
      var plan := Get(body, "weeklyDietPlan");
      && (r.resp.Ok? <==> SignedIn(uid) && plan.List? && plan.items != [] && AllAccepted(Verdicts(plan.items)))
      && (r.resp.Ok? ==> AllAccepted(Verdicts(plan.items))
                          && r.store == StoreDays(store, uid.value, Verdicts(plan.items), clock))
  {
    var plan := Get(body, "weeklyDietPlan");
    if SignedIn(uid) && plan.List? {
      var vs := Verdicts(plan.items);
      forall i | 0 <= i < |vs| && vs[i].Rejected?
        ensures vs[i].resp.HttpError?
      {
        RejectionIsError(plan.items[i]);
      }
      WriteDaysSucceeds(store, uid.value, vs, clock);
    }
  }

  /** A path outside `users/{uid}/dietPlan` is one `add_dietplan` never names. */
  predicate InDietPlan(uid: Option<string>, p: Path) {
    SignedIn(uid) && |p| == 4 && p[..3] == DietPlanColl(uid.value)
  }

  /** `add_dietplan` creates or changes documents only in the caller's `dietPlan` collection. */
  lemma DietPlanFrame(store: Store, uid: Option<string>, body: Doc, clock: nat -> Value)
    ensures var r := DietPlanResult(store, uid, body, clock);
      && (forall p :: p in store && !InDietPlan(uid, p) ==> p in r.store && r.store[p] == store[p])
      && (forall p :: p in r.store && p !in store ==> InDietPlan(uid, p))
  {
    var plan := Get(body, "weeklyDietPlan");
    if SignedIn(uid) && IsTruthy(plan) && plan.List? {
      WriteDaysFrame(store, uid.value, Verdicts(plan.items), clock);
    }
  }

  /** The day loop only ever writes inside the caller's `dietPlan` collection. */
  lemma WriteDaysFrame(store: Store, uid: string, vs: seq<DayVerdict>, clock: nat -> Value)
    requires uid != ""
    ensures var r := WriteDays(store, uid, vs, clock);
      && (forall p :: p in store && !InDietPlan(Some(uid), p) ==> p in r.store && r.store[p] == store[p])
      && (forall p :: p in r.store && p !in store ==> InDietPlan(Some(uid), p))
  {
    var r := WriteDays(store, uid, vs, clock);
    var written := vs[..FirstRejected(vs)];
    assert r.store == StoreDays(store, uid, written, clock);
    forall p | !InDietPlan(Some(uid), p)
      ensures p in r.store <==> p in store
      ensures p in store ==> r.store[p] == store[p]
    {
      forall i | 0 <= i < |written|
        ensures p != DayPlanPath(uid, written[i].name)
      {
        assert DayPlanPath(uid, written[i].name)[..3] == DietPlanColl(uid);
      }
      StoreDaysFrame(store, uid, written, clock, p);
    }
  }

  /**
   * When day `k` is the first rejected one, the answer is its rejection,
   * the days before it are all stored, and the store differs from the
   * original only at their paths: the rejected day and later days leave
   * no trace.
   */
  lemma DietPlanPartialWrites(store: Store, uid: string, body: Doc, clock: nat -> Value, vs: seq<DayVerdict>, k: nat)
    requires uid != ""
    requires Get(body, "weeklyDietPlan").List? && vs == Verdicts(Get(body, "weeklyDietPlan").items)
    requires k < |vs|
    requires forall i :: 0 <= i < k ==> vs[i].Accepted?
    requires vs[k].Rejected?
    ensures var r := DietPlanResult(store, Some(uid), body, clock);
      && r.resp == vs[k].resp
      && (forall i :: 0 <= i < k ==> DayPlanPath(uid, vs[i].name) in r.store)
      && (forall p :: p in store && (forall i :: 0 <= i < k ==> p != DayPlanPath(uid, vs[i].name))
            ==> p in r.store && r.store[p] == store[p])
    ensures AllAccepted(vs[..k]) && DietPlanResult(store, Some(uid), body, clock).store == StoreDays(store, uid, vs[..k], clock)
  {
    WriteDaysStopsAt(store, uid, vs, clock, k);
  }
}
