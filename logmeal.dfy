/**
 * The meal log routes: `log_meal`, which files one meal under today's date
 * keyed by its category, and `check_missing_meals`, which gives every user a
 * zero-valued placeholder for each scheduled category nobody logged today.
 */
module LogMeal {
  import opened Wrappers
  import opened PyValue
  import opened Calendar
  import opened Firestore
  import opened Api
  import IdOrder

  /** `MEAL_SCHEDULE` */
  const MealSchedule: set<string> := {"Breakfast", "Lunch", "Dinner", "Snacks"}

  const ScanDone: string := "Checked and logged missing meals for all users."
  const MealLogged: string := "Meal logged successfully!"

  /** The document the scan writes for a category nobody logged: zero calories and nutrients, no ingredients. */
  function Placeholder(category: string, loggedAt: Value): (doc: Doc)
    ensures doc.Keys == {"meal_name", "category", "calories", "nutrients", "logged_at"}
    ensures doc["category"] == Str(category) && doc["logged_at"] == loggedAt
  {
    map[
      "meal_name" := Str(category),
      "category" := Str(category),
      "calories" := Int(0),
      "nutrients" := Dict(map["carbs" := Int(0), "protein" := Int(0), "fats" := Int(0)]),
      "logged_at" := loggedAt
    ]
  }

  /**
   * A placeholder names its category twice, has zero calories and zero
   * nutrients, is stamped with `loggedAt`, and carries no `ingredients`.
   */
  lemma PlaceholderShape(category: string, loggedAt: Value)
    ensures var doc := Placeholder(category, loggedAt);
      && doc.Keys == {"meal_name", "category", "calories", "nutrients", "logged_at"}
      && "ingredients" !in doc
      && doc["meal_name"] == doc["category"] == Str(category)
      && doc["calories"] == Int(0)
      && doc["nutrients"].Dict? && doc["nutrients"].fields.Keys == {"carbs", "protein", "fats"}
      && (forall k :: k in doc["nutrients"].fields ==> doc["nutrients"].fields[k] == Int(0))
      && doc["logged_at"] == loggedAt
  {
  }

  /** The schedule categories with no document in the day's `meals` collection. */
  function MissingMeals(store: Store, uid: string, d: Date): (missing: set<string>)
    requires Valid(d)
    ensures forall c :: c in missing <==> c in MealSchedule && MealPath(uid, d, c) !in store
  {
    MealSchedule - ChildIds(store, MealsColl(uid, d))
  }

  /** The users the scan visits: the documents of the `users` collection. */
  function Users(store: Store): (users: set<string>)
    ensures forall u :: u in users <==> ["users", u] in store
  {
    assert forall u :: ["users"] + [u] == ["users", u];
    ChildIds(store, ["users"])
  }

  /** Every scheduled meal slot of the given users on day `d`. */
  function Slots(users: set<string>, d: Date): set<Path>
    requires Valid(d)
  {
    set u, c | u in users && c in MealSchedule :: MealPath(u, d, c)
  }

  function Last(p: Path): string {
    if p == [] then "" else p[|p| - 1]
  }

  /**
   * `store` with a placeholder written at each path of `paths` that holds no
   * document; the placeholder at `p` carries the time stamp `stamp(p)`.
   */
  function Fill(store: Store, paths: set<Path>, stamp: Path -> Value): Store {
    map p | p in store.Keys + paths :: if p in store then store[p] else Placeholder(Last(p), stamp(p))
  }

  /**
   * The store after one `check_missing_meals` scan on day `d`: it holds the
   * documents it held, plus a document at every scheduled slot of every user.
   * `stamp(p)` is the clock reading taken when the placeholder at `p` was written.
   */
  function Backfilled(store: Store, d: Date, stamp: Path -> Value): (r: Store)
    requires Valid(d)
    ensures r.Keys == store.Keys + Slots(Users(store), d)
  {
    Fill(store, Slots(Users(store), d), stamp)
  }

  // ----- What one scan does -----

  /** Nothing the scan finds is rewritten or removed: logged meals, other days, other collections. */
  lemma BackfillKeepsExisting(store: Store, d: Date, stamp: Path -> Value)
    requires Valid(d)
    ensures forall p :: p in store ==> p in Backfilled(store, d, stamp) && Backfilled(store, d, stamp)[p] == store[p]
  {
  }

  /**
   * The documents a scan adds are exactly the placeholders for the missing
   * categories of each user, under that user's meals of day `d`.
   */
  lemma BackfillAddsExactlyMissing(store: Store, d: Date, stamp: Path -> Value, u: string, c: string)
    requires Valid(d)
    ensures MealPath(u, d, c) !in store ==>
      (MealPath(u, d, c) in Backfilled(store, d, stamp) <==> u in Users(store) && c in MissingMeals(store, u, d))
    ensures u in Users(store) && c in MissingMeals(store, u, d) ==>
      Backfilled(store, d, stamp)[MealPath(u, d, c)] == Placeholder(c, stamp(MealPath(u, d, c)))
  {
    var p := MealPath(u, d, c);
    var r := Backfilled(store, d, stamp);
    InSlots(Users(store), d, u, c);
    if p !in store {
      assert p in r <==> p in Slots(Users(store), d);
      assert c in MissingMeals(store, u, d) <==> c in MealSchedule;
    }
    if u in Users(store) && c in MissingMeals(store, u, d) {
      assert p !in store && p in Slots(Users(store), d);
      assert r[p] == Placeholder(Last(p), stamp(p));
    }
  }

  /** Every new document sits at a scheduled slot of a user on day `d`. */
  lemma BackfillOnlyToday(store: Store, d: Date, stamp: Path -> Value, p: Path)
    requires Valid(d)
    requires p in Backfilled(store, d, stamp) && p !in store
    ensures exists u, c :: u in Users(store) && c in MealSchedule && p == MealPath(u, d, c)
  {
  }

  /** The `users` collection is what it was, so a second scan visits the same users. */
  lemma BackfillKeepsUsers(store: Store, d: Date, stamp: Path -> Value)
    requires Valid(d)
    ensures Users(Backfilled(store, d, stamp)) == Users(store)
  {
    var r := Backfilled(store, d, stamp);
    SlotsAreMealPaths(Users(store), d);
    forall u | u in Users(r) ensures u in Users(store) {
      assert ["users"] + [u] in r;
      assert |["users"] + [u]| == 2;
      assert ["users"] + [u] !in Slots(Users(store), d);
    }
  }

  /** After a scan every user has a document for every category of the schedule. */
  lemma BackfillComplete(store: Store, d: Date, stamp: Path -> Value)
    requires Valid(d)
    ensures forall u :: u in Users(store) ==> MissingMeals(Backfilled(store, d, stamp), u, d) == {}
  {
    forall u, c | u in Users(store) && c in MealSchedule
      ensures MealPath(u, d, c) in Backfilled(store, d, stamp)
    {
      assert MealPath(u, d, c) in Slots(Users(store), d);
    }
  }

  /** A second scan of the same day writes nothing. */
  lemma BackfillIdempotent(store: Store, d: Date, stamp: Path -> Value, stamp': Path -> Value)
    requires Valid(d)
    ensures Backfilled(Backfilled(store, d, stamp), d, stamp') == Backfilled(store, d, stamp)
  {
    var r := Backfilled(store, d, stamp);
    BackfillKeepsUsers(store, d, stamp);
    assert Slots(Users(r), d) <= r.Keys;
    FillNoop(r, Slots(Users(r), d), stamp');
  }

  /**
   * Two scans of the same store differ at most in the `logged_at` stamps of
   * the placeholders: the order in which they are written decides nothing else.
   */
  lemma BackfillStampsOnly(store: Store, d: Date, stamp: Path -> Value, stamp': Path -> Value)
    requires Valid(d)
    ensures Backfilled(store, d, stamp).Keys == Backfilled(store, d, stamp').Keys
    ensures forall p :: p in Backfilled(store, d, stamp) ==>
      Backfilled(store, d, stamp)[p] - {"logged_at"} == Backfilled(store, d, stamp')[p] - {"logged_at"}
  {
    forall p | p in Backfilled(store, d, stamp) && p !in store
      ensures Backfilled(store, d, stamp)[p] - {"logged_at"} == Backfilled(store, d, stamp')[p] - {"logged_at"}
    {
      PlaceholderRestamped(Last(p), stamp(p), stamp'(p));
    }
  }

  /** Placeholders for one category differ only in their stamp. */
  lemma PlaceholderRestamped(category: string, a: Value, b: Value)
    ensures Placeholder(category, a) - {"logged_at"} == Placeholder(category, b) - {"logged_at"}
  {
    var pa, pb := Placeholder(category, a) - {"logged_at"}, Placeholder(category, b) - {"logged_at"};
    assert pa.Keys == pb.Keys;
  }

  // ----- The order of the writes -----

  /** No path is written twice. */
  predicate Distinct(order: seq<Path>) {
    forall i, j :: 0 <= i < j < |order| ==> order[i] != order[j]
  }

  /** The position of `p` in `order`. */
  function IndexOf(order: seq<Path>, p: Path): (k: nat)
    requires p in order
    ensures k < |order| && order[k] == p
    ensures forall i :: 0 <= i < k ==> order[i] != p
  {
    if order[0] == p then 0 else 1 + IndexOf(order[1..], p)
  }

  /** The stamps of writes made in `order`: the k-th write carries the k-th clock reading. */
  function StampOf(order: seq<Path>, clock: nat -> Value): Path -> Value {
    p => if p in order then clock(IndexOf(order, p)) else Null
  }

  // ----- Lemmas the scan's loops rely on -----

  lemma FillAdd(store: Store, paths: set<Path>, q: Path, stamp: Path -> Value)
    requires q !in store
    ensures Fill(store, paths + {q}, stamp) == Fill(store, paths, stamp)[q := Placeholder(Last(q), stamp(q))]
  {
  }

  lemma FillSame(store: Store, paths: set<Path>, paths': set<Path>, stamp: Path -> Value)
    requires forall p :: p in paths - store.Keys <==> p in paths' - store.Keys
    ensures Fill(store, paths, stamp) == Fill(store, paths', stamp)
  {
    forall p ensures p in store.Keys + paths <==> p in store.Keys + paths' {
      assert p in paths - store.Keys <==> p in paths' - store.Keys;
    }
    assert store.Keys + paths == store.Keys + paths';
  }

  /** Only the stamps of paths that get a placeholder matter. */
  lemma FillAgree(store: Store, paths: set<Path>, stamp: Path -> Value, stamp': Path -> Value)
    requires forall p :: p in paths && p !in store ==> stamp(p) == stamp'(p)
    ensures Fill(store, paths, stamp) == Fill(store, paths, stamp')
  {
  }

  lemma FillNoop(store: Store, paths: set<Path>, stamp: Path -> Value)
    requires paths <= store.Keys
    ensures Fill(store, paths, stamp) == store
  {
    assert store.Keys + paths == store.Keys;
  }

  /** One more write, stamped with the next clock reading, extends both the filled paths and the order. */
  lemma FillNext(s0: Store, paths: set<Path>, order: seq<Path>, clock: nat -> Value, q: Path)
    requires q !in s0 && q !in order
    requires forall p :: p in paths && p !in s0 ==> p in order
    ensures Fill(s0, paths, StampOf(order, clock))[q := Placeholder(Last(q), clock(|order|))]
         == Fill(s0, paths + {q}, StampOf(order + [q], clock))
  {
    var st, st' := StampOf(order, clock), StampOf(order + [q], clock);
    forall p | p in paths && p !in s0 ensures st(p) == st'(p) {
      IndexOfSnoc(order, q, p);
    }
    FillAgree(s0, paths, st, st');
    IndexOfSnoc(order, q, q);
    FillAdd(s0, paths, q, st');
  }

  lemma IndexOfSnoc(order: seq<Path>, q: Path, p: Path)
    requires q !in order && (p in order || p == q)
    ensures p in order ==> IndexOf(order + [q], p) == IndexOf(order, p)
    ensures p == q ==> IndexOf(order + [q], p) == |order|
  {
    var k := IndexOf(order + [q], p);
    if p in order {
      var j := IndexOf(order, p);
      assert (order + [q])[j] == p;
    } else {
      assert forall i :: 0 <= i < |order| ==> (order + [q])[i] != q;
    }
  }

  lemma SlotsAreMealPaths(users: set<string>, d: Date)
    requires Valid(d)
    ensures forall p :: p in Slots(users, d) ==> |p| == 8
  {
  }

  /** A meal path is a slot exactly when its user is listed and its category scheduled. */
  lemma InSlots(users: set<string>, d: Date, u: string, c: string)
    requires Valid(d)
    ensures MealPath(u, d, c) in Slots(users, d) <==> u in users && c in MealSchedule
  {
    if MealPath(u, d, c) in Slots(users, d) {
      var u', c' :| u' in users && c' in MealSchedule && MealPath(u, d, c) == MealPath(u', d, c');
      MealPathInjective(u, d, c, u', d, c');
    }
  }

  /** The placeholders for one user's missing categories. */
  function UserPaths(u: string, d: Date, cs: set<string>): set<Path>
    requires Valid(d)
  {
    set c | c in cs :: MealPath(u, d, c)
  }

  /** Once one user's missing categories are filled, the new paths are exactly that user's empty slots added. */
  lemma UserDone(s0: Store, done: set<string>, u: string, d: Date, missing: set<string>, stamp: Path -> Value)
    requires Valid(d) && u !in done
    requires forall c :: c in missing <==> c in MealSchedule && MealPath(u, d, c) !in Fill(s0, Slots(done, d), stamp)
    ensures forall p :: p in Slots(done, d) + UserPaths(u, d, missing) && p !in s0 <==> p in Slots(done + {u}, d) && p !in s0
    ensures Fill(s0, Slots(done, d) + UserPaths(u, d, missing), stamp) == Fill(s0, Slots(done + {u}, d), stamp)
  {
    var a, b := Slots(done, d) + UserPaths(u, d, missing), Slots(done + {u}, d);
    forall p | p !in s0 && p in b ensures p in a {
      NewSlotFilled(s0, done, u, d, missing, stamp, p);
    }
    forall p | p in a ensures p in b {
      FilledIsSlot(done, u, d, missing, p);
    }
    FillSame(s0, a, b, stamp);
  }

  lemma NewSlotFilled(s0: Store, done: set<string>, u: string, d: Date, missing: set<string>, stamp: Path -> Value, p: Path)
    requires Valid(d)
    requires forall c :: c in missing <==> c in MealSchedule && MealPath(u, d, c) !in Fill(s0, Slots(done, d), stamp)
    requires p !in s0 && p in Slots(done + {u}, d)
    ensures p in Slots(done, d) + UserPaths(u, d, missing)
  {
    var u', c' :| u' in done + {u} && c' in MealSchedule && p == MealPath(u', d, c');
    if u' != u {
      assert p in Slots(done, d);
    } else if p !in Slots(done, d) {
      assert c' in missing;
    }
  }

  lemma FilledIsSlot(done: set<string>, u: string, d: Date, missing: set<string>, p: Path)
    requires Valid(d) && missing <= MealSchedule
    requires p in Slots(done, d) + UserPaths(u, d, missing)
    ensures p in Slots(done + {u}, d)
  {
    if p in UserPaths(u, d, missing) {
      var c :| c in missing && p == MealPath(u, d, c);
      InSlots(done + {u}, d, u, c);
    } else {
      var u', c' :| u' in done && c' in MealSchedule && p == MealPath(u', d, c');
      InSlots(done + {u}, d, u', c');
    }
  }

  // ----- The routes -----

  /**
   * `check_missing_meals`: for every user document, and every scheduled
   * category with no document under today's `meals`, writes a placeholder.
   * `clock(k)` is what the k-th `datetime.now()` of the scan's writes returns;
   * `order` is the order of the writes, which follows the users' listing and,
   * within a user, the iteration order of the schedule set, left open here.
   */
  method CheckMissingMeals(db: DocumentStore, now: Date, clock: nat -> Value) returns (resp: Response, ghost order: seq<Path>)
    requires Valid(now)
    modifies db
    ensures Distinct(order)
    ensures forall p :: p in order <==> p in Slots(Users(old(db.docs)), now) && p !in old(db.docs)
    ensures db.docs == Backfilled(old(db.docs), now, StampOf(order, clock))
    ensures resp == Ok(Message("success", ScanDone))
  {
    ghost var s0 := db.docs;
    var users := db.ListIds(["users"]);
    ghost var done: set<string> := {};
    order := [];
    var ticks := 0;
    var i := 0;
    while i < |users|
      invariant 0 <= i <= |users|
      invariant users == IdOrder.Sorted(Users(s0))
      invariant forall u :: u in done <==> u in users[..i]
      invariant ticks == |order| && Distinct(order)
      invariant forall p :: p in order <==> p in Slots(done, now) && p !in s0
      invariant db.docs == Fill(s0, Slots(done, now), StampOf(order, clock))
    {
      NextUnvisited(users, i, done);
      ticks, order := BackfillUser(db, users[i], now, clock, ticks, s0, done, order);
      done := done + {users[i]};
      i := i + 1;
    }
    assert done == Users(s0);
    resp := Ok(Message("success", ScanDone));
  }

  /** The next user of an ascending listing has not been visited yet. */
  lemma NextUnvisited(users: seq<string>, i: nat, done: set<string>)
    requires i < |users|
    requires forall j, k :: 0 <= j < k < |users| ==> IdOrder.Lt(users[j], users[k])
    requires forall u :: u in done <==> u in users[..i]
    ensures users[i] !in done
    ensures forall u :: u in done + {users[i]} <==> u in users[..i + 1]
  {
    forall j | 0 <= j < i ensures users[j] != users[i] {
      assert IdOrder.Lt(users[j], users[i]);
    }
    assert users[i] !in users[..i];
    assert users[..i + 1] == users[..i] + [users[i]];
  }

  /** One user's turn of the scan: a placeholder for each scheduled category not logged on day `now`. */
  method BackfillUser(db: DocumentStore, uid: string, now: Date, clock: nat -> Value, ticks: nat,
                      ghost s0: Store, ghost done: set<string>, ghost order: seq<Path>)
    returns (ticks': nat, ghost order': seq<Path>)
    requires Valid(now) && uid !in done
    requires ticks == |order| && Distinct(order)
    requires forall p :: p in order <==> p in Slots(done, now) && p !in s0
    requires db.docs == Fill(s0, Slots(done, now), StampOf(order, clock))
    modifies db
    ensures ticks' == |order'| && Distinct(order')
    ensures forall p :: p in order' <==> p in Slots(done + {uid}, now) && p !in s0
    ensures db.docs == Fill(s0, Slots(done + {uid}, now), StampOf(order', clock))
  {
    var logged := ChildIds(db.docs, MealsColl(uid, now));
    var missing := MealSchedule - logged;
    forall c | c in missing ensures MealPath(uid, now, c) !in Slots(done, now) {
      InSlots(done, now, uid, c);
    }
    assert forall c :: c in missing ==> MealPath(uid, now, c) !in s0;
    ticks', order' := WritePlaceholders(db, uid, now, missing, clock, ticks, s0, Slots(done, now), order);
    UserDone(s0, done, uid, now, missing, StampOf(order', clock));
  }

  /** `for missing_meal in missing_meals: ...set(placeholder)`, in whatever order the set yields, one clock reading per write. */
  method WritePlaceholders(db: DocumentStore, uid: string, now: Date, missing: set<string>, clock: nat -> Value, ticks: nat,
                           ghost s0: Store, ghost base: set<Path>, ghost order: seq<Path>)
    returns (ticks': nat, ghost order': seq<Path>)
    requires Valid(now)
    requires forall c :: c in missing ==> MealPath(uid, now, c) !in s0 && MealPath(uid, now, c) !in base
    requires ticks == |order| && Distinct(order)
    requires forall p :: p in order <==> p in base && p !in s0
    requires db.docs == Fill(s0, base, StampOf(order, clock))
    modifies db
    ensures ticks' == |order'| && Distinct(order')
    ensures forall p :: p in order' <==> p in base + UserPaths(uid, now, missing) && p !in s0
    ensures db.docs == Fill(s0, base + UserPaths(uid, now, missing), StampOf(order', clock))
  {
    var rest := missing;
    ticks', order' := ticks, order;
    assert base + UserPaths(uid, now, {}) == base;
    while rest != {}
      invariant rest <= missing
      invariant ticks' == |order'| && Distinct(order')
      invariant forall p :: p in order' <==> p in base + UserPaths(uid, now, missing - rest) && p !in s0
      invariant db.docs == Fill(s0, base + UserPaths(uid, now, missing - rest), StampOf(order', clock))
      decreases rest
    {
      var c :| c in rest;
      var loggedAt := clock(ticks');
      FillStep(s0, base, order', clock, uid, now, missing, rest, c);
      db.Set(MealPath(uid, now, c), Placeholder(c, loggedAt));
      order' := order' + [MealPath(uid, now, c)];
      ticks' := ticks' + 1;
      rest := rest - {c};
    }
    assert missing - rest == missing;
  }

  /** Writing the placeholder for one more category of `uid` extends the filled paths and the order by it. */
  lemma FillStep(s0: Store, base: set<Path>, order: seq<Path>, clock: nat -> Value, uid: string, d: Date,
                 missing: set<string>, rest: set<string>, c: string)
    requires Valid(d) && c in rest && rest <= missing
    requires forall c :: c in missing ==> MealPath(uid, d, c) !in s0 && MealPath(uid, d, c) !in base
    requires Distinct(order)
    requires forall p :: p in order <==> p in base + UserPaths(uid, d, missing - rest) && p !in s0
    ensures var q := MealPath(uid, d, c);
      && Distinct(order + [q])
      && (forall p :: p in order + [q] <==> p in base + UserPaths(uid, d, missing - (rest - {c})) && p !in s0)
      && Fill(s0, base + UserPaths(uid, d, missing - rest), StampOf(order, clock))[q := Placeholder(c, clock(|order|))]
         == Fill(s0, base + UserPaths(uid, d, missing - (rest - {c})), StampOf(order + [q], clock))
  {
    var q := MealPath(uid, d, c);
    var paths := base + UserPaths(uid, d, missing - rest);
    NextPath(uid, d, missing, rest, c);
    assert base + UserPaths(uid, d, missing - (rest - {c})) == paths + {q};
    assert q !in paths && q !in s0;
    DistinctSnoc(order, q);
    FillNext(s0, paths, order, clock, q);
  }

  /** Appending a path not yet in the order keeps it free of repeats and adds exactly that path. */
  lemma DistinctSnoc(order: seq<Path>, q: Path)
    requires Distinct(order) && q !in order
    ensures Distinct(order + [q])
    ensures forall p :: p in order + [q] <==> p in order || p == q
  {
  }

  /** Taking `c` out of the categories still to write adds exactly its path to those written. */
  lemma NextPath(uid: string, d: Date, missing: set<string>, rest: set<string>, c: string)
    requires Valid(d) && c in rest && rest <= missing
    ensures UserPaths(uid, d, missing - (rest - {c})) == UserPaths(uid, d, missing - rest) + {MealPath(uid, d, c)}
    ensures MealPath(uid, d, c) !in UserPaths(uid, d, missing - rest)
  {
    assert missing - (rest - {c}) == (missing - rest) + {c};
    forall c' | c' in missing - rest ensures MealPath(uid, d, c') != MealPath(uid, d, c) {
      if MealPath(uid, d, c') == MealPath(uid, d, c) {
        MealPathInjective(uid, d, c', uid, d, c);
      }
    }
  }

  // ----- log_meal -----

  /** The document `log_meal` writes: the body's fields as sent (None when absent), `ingredients` defaulting to []. */
  function MealRecord(body: Doc, loggedAt: Value): (r: Doc)
    ensures r.Keys == {"meal_name", "category", "calories", "nutrients", "ingredients", "logged_at"}
    ensures r["logged_at"] == loggedAt
  {
    map[
      "meal_name" := Get(body, "meal_name"),
      "category" := Get(body, "category"),
      "calories" := Get(body, "calories"),
      "nutrients" := Get(body, "nutrients"),
      "ingredients" := GetOr(body, "ingredients", List([])),
      "logged_at" := loggedAt
    ]
  }

  /** What `log_meal` answers and the store it leaves. */
  function LogMealResult(store: Store, uid: Option<string>, body: Doc, now: Date, loggedAt: Value): (r: Outcome)
    requires Valid(now) && (SignedIn(uid) ==> Get(body, "category").Str?)
    ensures r.resp.Ok? <==> SignedIn(uid)
    ensures r.store.Keys == store.Keys + (if SignedIn(uid) then {MealPath(uid.value, now, body["category"].s)} else {})
  {
    if !SignedIn(uid) then Outcome(Unauthorized, store)
    else Outcome(Ok(Message("success", MealLogged)),
                 store[MealPath(uid.value, now, body["category"].s) := MealRecord(body, loggedAt)])
  }

  /** Without a uid nothing is written and the answer is 401. */
  lemma LogMealUnauthorized(store: Store, uid: Option<string>, body: Doc, now: Date, loggedAt: Value)
    requires Valid(now) && !SignedIn(uid)
    ensures LogMealResult(store, uid, body, now, loggedAt) == Outcome(Unauthorized, store)
  {
  }

  /**
   * A logged meal reads back from today's slot of its category as the
   * meal record; every other document, other categories included, is
   * untouched.
   */
  lemma LogMealReadBack(store: Store, uid: Option<string>, body: Doc, now: Date, loggedAt: Value)
    requires Valid(now) && Get(body, "category").Str? && SignedIn(uid)
    ensures var r := LogMealResult(store, uid, body, now, loggedAt);
      var p := MealPath(uid.value, now, body["category"].s);
      && r.resp.Ok?
      && p in r.store && r.store[p] == MealRecord(body, loggedAt)
      && (forall q :: q != p ==> (q in r.store <==> q in store) && (q in store ==> r.store[q] == store[q]))
  {
  }

  /**
   * The meal record copies the four meal fields as sent (None when
   * absent), defaults `ingredients` to the empty list, stamps
   * `logged_at`, and holds nothing else.
   */
  lemma MealRecordFields(body: Doc, loggedAt: Value)
    ensures forall k :: k in ["meal_name", "category", "calories", "nutrients"] ==>
      MealRecord(body, loggedAt)[k] == (if k in body then body[k] else Null)
    ensures MealRecord(body, loggedAt)["ingredients"] == (if "ingredients" in body then body["ingredients"] else List([]))
    ensures MealRecord(body, loggedAt)["logged_at"] == loggedAt
    ensures MealRecord(body, loggedAt).Keys == {"meal_name", "category", "calories", "nutrients", "ingredients", "logged_at"}
  {
  }

  /** A second meal logged in the same category on the same day replaces the first. */
  lemma LogMealLastWins(store: Store, uid: Option<string>, first: Doc, second: Doc, now: Date, at1: Value, at2: Value)
    requires Valid(now) && Get(first, "category").Str? && Get(second, "category") == Get(first, "category")
    ensures LogMealResult(LogMealResult(store, uid, first, now, at1).store, uid, second, now, at2)
         == LogMealResult(store, uid, second, now, at2)
  {
  }

  /** `log_meal` */
  method LogMealRoute(db: DocumentStore, uid: Option<string>, body: Doc, now: Date, loggedAt: Value) returns (resp: Response)
    requires Valid(now) && (SignedIn(uid) ==> Get(body, "category").Str?)
    modifies db
    ensures Outcome(resp, db.docs) == LogMealResult(old(db.docs), uid, body, now, loggedAt)
  {
    if !SignedIn(uid) {
      return Unauthorized;
    }
    var meal := MealRecord(body, loggedAt);
    db.Set(MealPath(uid.value, now, body["category"].s), meal);
    resp := Ok(Message("success", MealLogged));
  }
}
