/**
 * The AI-adjustment handler: it keeps one conversation memory per user,
 * reads the profile, the diet plan, the last adjustment and seven days of
 * meal logs, asks the generative model, strips code fences from its answer,
 * parses it as JSON and stores the result under today's date key.
 *
 * The model and `json.loads` are parameters: `generate` answers a history
 * and a prompt, `parse` answers a text with a JSON value or nothing.
 */
module AiAdjustment {
  import opened Wrappers
  import opened PyValue
  import opened PyStr
  import opened Calendar
  import opened Firestore
  import opened Api

  const Fallback: string := "No response generated."
  const JsonFence: string := "```json"
  const Fence: string := "```"

  /** Every failure past the session check, whatever its cause. */
  const GenericFailure: Response := HttpError(500, "Failed to generate AI adjustment. Please try again.")

  // ----- The seven-day window -----

  /** The first `n` dates of the window: today, then one day back, two days back, ... */
  function WindowPrefix(today: Date, n: nat): (w: Option<seq<Date>>)
    requires Valid(today)
    ensures w.Some? ==> |w.value| == n
    ensures w.Some? ==> forall i :: 0 <= i < n ==> Valid(w.value[i]) && DaysBack(today, i) == Some(w.value[i])
    ensures w.None? ==> exists i :: 0 <= i < n && DaysBack(today, i).None?
  {
    if n == 0 then Some([])
    else match WindowPrefix(today, n - 1)
      case None => None
      case Some(ds) =>
        match DaysBack(today, n - 1)
        case None => None
        case Some(d) => Some(ds + [d])
  }

  /** The seven dates whose logs the handler reads; None when a date falls before 0001-01-01. */
  function Window(today: Date): (w: Option<seq<Date>>)
    requires Valid(today)
    ensures w.Some? ==> |w.value| == 7 && w.value[0] == today
    ensures w.None? <==> exists i :: 0 <= i < 7 && DaysBack(today, i).None?
  {
    var w := WindowPrefix(today, 7);
    assert w.Some? ==> forall i :: 0 <= i < 7 ==> DaysBack(today, i) == Some(w.value[i]);
    assert w.None? ==> exists i :: 0 <= i < 7 && DaysBack(today, i).None?;
    w
  }

  /**
   * The window is today followed by the six days before it, each the day
   * before the previous one; its dates, and so their log paths, are
   * pairwise distinct.
   */
  lemma WindowShape(today: Date)
    requires Valid(today)
    ensures Window(today).Some? ==>
      var w := Window(today).value;
      && |w| == 7 && w[0] == today
      && (forall i :: 1 <= i < 7 ==> Prev(w[i - 1]) == Some(w[i]))
      && (forall i, j :: 0 <= i < j < 7 ==> w[i] != w[j] && DatePath(w[i]) != DatePath(w[j]))
  {
    if Window(today).Some? {
      var w := Window(today).value;
      forall i | 1 <= i < 7
        ensures Prev(w[i - 1]) == Some(w[i])
      {
        assert DaysBack(today, i) == Some(w[i]);
        assert DaysBack(today, i - 1) == Some(w[i - 1]);
      }
      forall i, j | 0 <= i < j < 7
        ensures w[i] != w[j] && DatePath(w[i]) != DatePath(w[j])
      {
        DaysBackOrdinal(today, i);
        DaysBackOrdinal(today, j);
        if DatePath(w[i]) == DatePath(w[j]) {
          DatePathInjective(w[i], w[j]);
        }
      }
    }
  }

  /** The window exists unless today is one of the first six days of year 1. */
  lemma WindowExists(today: Date)
    requires Valid(today)
    ensures Window(today).None? <==> today.year == 1 && today.month == 1 && today.day <= 6
  {
    OrdinalPositive(today);
    DaysBackOrdinal(today, 6);
    if Window(today).None? {
      var i :| 0 <= i < 7 && DaysBack(today, i).None?;
      DaysBackOrdinal(today, i);
    }
  }

  // ----- The meal logs -----

  /** The lists of `xss` appended in order. */
  function Concat(xss: seq<seq<Doc>>): (r: seq<Doc>) {
    if xss == [] then [] else Concat(xss[..|xss| - 1]) + xss[|xss| - 1]
  }

  function TotalLength(xss: seq<seq<Doc>>): nat {
    if xss == [] then 0 else TotalLength(xss[..|xss| - 1]) + |xss[|xss| - 1]|
  }

  /** The first list comes first, followed by the rest in order. */
  lemma {:induction false} ConcatFront(xss: seq<seq<Doc>>)
    requires xss != []
    ensures Concat(xss) == xss[0] + Concat(xss[1..])
    decreases |xss|
  {
    var n := |xss| - 1;
    if n > 0 {
      var init, tail := xss[..n], xss[1..];
      ConcatFront(init);
      assert init[1..] == tail[..n - 1];
      assert tail[n - 1] == xss[n];
    } else {
      assert xss[..0] == [];
      assert xss[1..] == [];
    }
  }

  /** Appending keeps every element: the length is the sum of the lengths. */
  lemma {:induction false} ConcatLength(xss: seq<seq<Doc>>)
    ensures |Concat(xss)| == TotalLength(xss)
    decreases |xss|
  {
    if xss != [] {
      ConcatLength(xss[..|xss| - 1]);
    }
  }

  /** The result is empty exactly when every list is. */
  lemma {:induction false} ConcatEmpty(xss: seq<seq<Doc>>)
    ensures Concat(xss) == [] <==> forall i :: 0 <= i < |xss| ==> xss[i] == []
    decreases |xss|
  {
    if xss != [] {
      var n := |xss| - 1;
      ConcatEmpty(xss[..n]);
      assert forall i :: 0 <= i < n ==> xss[..n][i] == xss[i];
    }
  }

  /** Each day's meal documents, in stream order. */
  ghost function DayListings(store: Store, uid: string, days: seq<Date>): (r: seq<seq<Doc>>)
    requires forall i :: 0 <= i < |days| ==> Valid(days[i])
    ensures |r| == |days|
    ensures forall i :: 0 <= i < |days| ==> |r[i]| == |ChildIds(store, MealsColl(uid, days[i]))|
  {
    seq(|days|, i requires 0 <= i < |days| => Listing(store, MealsColl(uid, days[i])))
  }

  /** The meal documents of `days`, day by day. */
  ghost function MealLogs(store: Store, uid: string, days: seq<Date>): (logs: seq<Doc>)
    requires forall i :: 0 <= i < |days| ==> Valid(days[i])
    ensures |logs| == TotalLength(DayListings(store, uid, days))
  {
    ConcatLength(DayListings(store, uid, days));
    Concat(DayListings(store, uid, days))
  }

  /** The logs the handler gathers for `today`; None when the window does not exist. */
  ghost function WindowLogs(store: Store, uid: string, today: Date): (logs: Option<seq<Doc>>)
    requires Valid(today)
    ensures logs.Some? <==> Window(today).Some?
  {
    match Window(today)
    case None => None
    case Some(ds) => Some(MealLogs(store, uid, ds))
  }

  /** Today's documents come first, then the six days before it, in order. */
  lemma WindowLogsOrder(store: Store, uid: string, today: Date)
    requires Valid(today)
    ensures WindowLogs(store, uid, today).Some? ==>
      WindowLogs(store, uid, today).value
        == Listing(store, MealsColl(uid, today)) + Concat(DayListings(store, uid, Window(today).value)[1..])
  {
    if WindowLogs(store, uid, today).Some? {
      var w := Window(today).value;
      assert DaysBack(today, 0) == Some(w[0]);
      ConcatFront(DayListings(store, uid, w));
    }
  }

  /**
   * The logs hold as many documents as the seven days together, so they
   * are empty exactly when no day of the window has a meal document.
   */
  lemma WindowLogsCount(store: Store, uid: string, today: Date)
    requires Valid(today)
    ensures WindowLogs(store, uid, today).Some? ==>
      var w := Window(today).value;
      var logs := WindowLogs(store, uid, today).value;
      && |logs| == TotalLength(DayListings(store, uid, w))
      && (logs == [] <==> forall i :: 0 <= i < 7 ==> ChildIds(store, MealsColl(uid, w[i])) == {})
  {
    if WindowLogs(store, uid, today).Some? {
      var w := Window(today).value;
      var xss := DayListings(store, uid, w);
      ConcatLength(xss);
      ConcatEmpty(xss);
      assert forall i :: 0 <= i < 7 ==> (xss[i] == [] <==> |xss[i]| == 0);
    }
  }

  /** Today's stream, then the six earlier days' streams, appended in turn. */
  method CollectMealLogs(db: DocumentStore, uid: string, today: Date) returns (logs: Option<seq<Doc>>)
    requires Valid(today)
    ensures logs == WindowLogs(db.docs, uid, today)
  {
    var acc := db.Stream(MealsColl(uid, today));
    ghost var ds: seq<Date> := [today];
    FirstWindowDay(db.docs, uid, today, acc);
    var i := 1;
    while i < 7
      invariant 1 <= i <= 7
      invariant WindowPrefix(today, i) == Some(ds)
      invariant acc == MealLogs(db.docs, uid, ds)
    {
      var prev := DaysBack(today, i);
      if prev.None? {
        WindowGone(today, i);
        return None;
      }
      var day := db.Stream(MealsColl(uid, prev.value));
      NextWindowDay(db.docs, uid, today, i, ds, day);
      acc := acc + day;
      ds := ds + [prev.value];
      i := i + 1;
    }
    logs := Some(acc);
  }

  lemma FirstWindowDay(store: Store, uid: string, today: Date, day: seq<Doc>)
    requires Valid(today)
    requires day == Listing(store, MealsColl(uid, today))
    ensures WindowPrefix(today, 1) == Some([today])
    ensures MealLogs(store, uid, [today]) == day
  {
    var xss := DayListings(store, uid, [today]);
    assert xss == [day];
    assert xss[..0] == [];
    assert Concat(xss) == Concat([]) + day;
    assert DaysBack(today, 0) == Some(today);
    assert WindowPrefix(today, 0) == Some([]);
    assert [] + [today] == [today];
  }

  /** A date of the window that falls before the calendar leaves no window at all. */
  lemma WindowGone(today: Date, i: nat)
    requires Valid(today) && i < 7
    requires DaysBack(today, i).None?
    ensures Window(today).None?
  {
  }

  lemma NextWindowDay(store: Store, uid: string, today: Date, i: nat, ds: seq<Date>, day: seq<Doc>)
    requires Valid(today) && i < 7
    requires WindowPrefix(today, i) == Some(ds)
    requires DaysBack(today, i).Some?
    requires day == Listing(store, MealsColl(uid, DaysBack(today, i).value))
    ensures WindowPrefix(today, i + 1) == Some(ds + [DaysBack(today, i).value])
    ensures MealLogs(store, uid, ds + [DaysBack(today, i).value]) == MealLogs(store, uid, ds) + day
  {
    MealLogsSnoc(store, uid, ds, DaysBack(today, i).value);
  }

  /** Adding a day to the window appends that day's stream to the logs. */
  lemma MealLogsSnoc(store: Store, uid: string, ds: seq<Date>, d: Date)
    requires forall i :: 0 <= i < |ds| ==> Valid(ds[i])
    requires Valid(d)
    ensures MealLogs(store, uid, ds + [d]) == MealLogs(store, uid, ds) + Listing(store, MealsColl(uid, d))
  {
    var xss := DayListings(store, uid, ds + [d]);
    assert xss[..|ds|] == DayListings(store, uid, ds);
  }

  // ----- The model's answer -----

  /** Removes a leading "```json" once, then a trailing "```" once, then surrounding whitespace. */
  function StripFences(output: string): (r: string)
    ensures |r| <= |output|
    ensures r == [] || (!IsSpace(r[0]) && !IsSpace(r[|r| - 1]))
  {
    var a := if StartsWith(output, JsonFence) then output[|JsonFence|..] else output;
    var b := if EndsWith(a, Fence) then a[..|a| - |Fence|] else a;
    StripShape(b);
    Strip(b)
  }

  /** Text fenced on both sides loses exactly the two fences, whatever the text inside. */
  lemma StripFencesBoth(body: string)
    ensures StripFences(JsonFence + body + Fence) == Strip(body)
  {
    var s := JsonFence + body + Fence;
    assert s[..7] == JsonFence;
    assert s[7..] == body + Fence;
    assert (body + Fence)[|body|..] == Fence;
    assert (body + Fence)[..|body|] == body;
  }

  /** A leading fence without a trailing one is still removed. */
  lemma StripFencesLeadingOnly(body: string)
    requires !EndsWith(body, Fence)
    ensures StripFences(JsonFence + body) == Strip(body)
  {
    var s := JsonFence + body;
    assert s[..7] == JsonFence;
    assert s[7..] == body;
  }

  /** Text with neither marker is only trimmed. */
  lemma StripFencesNone(s: string)
    requires !StartsWith(s, JsonFence) && !EndsWith(s, Fence)
    ensures StripFences(s) == Strip(s)
  {
  }

  /** `json.loads` skips these before the value. */
  predicate IsJsonSpace(c: char) {
    c == ' ' || c == '\t' || c == '\n' || c == '\r'
  }

  function SkipJsonSpace(s: string): (r: string)
    ensures |r| <= |s| && r == s[|s| - |r|..]
    ensures r == [] || !IsJsonSpace(r[0])
    decreases |s|
  {
    if s != [] && IsJsonSpace(s[0]) then SkipJsonSpace(s[1..]) else s
  }

  /**
   * A text `json.loads` can accept starts, after JSON whitespace, with the
   * first character of a JSON value, or with Python's `NaN` or `Infinity`.
   */
  predicate MayBeginJsonText(s: string) {
    var t := SkipJsonSpace(s);
    t != [] && (t[0] in "{[\"-0123456789ntf" || StartsWith(t, "NaN") || StartsWith(t, "Infinity"))
  }

  /** What is assumed of `parse`: it accepts nothing that cannot begin a JSON text. */
  ghost predicate JsonLoadsContract(parse: string -> Option<Value>) {
    forall s :: parse(s).Some? ==> MayBeginJsonText(s)
  }

  /** The fallback text has no fence and no surrounding whitespace, so fence stripping keeps it whole. */
  lemma FallbackUnfenced()
    ensures StripFences(Fallback) == Fallback
  {
    assert Fallback[0] == 'N' && Fallback[|Fallback| - 1] == '.';
    assert !StartsWith(Fallback, JsonFence);
    assert !EndsWith(Fallback, Fence);
    StripNoop(Fallback);
  }

  /** The fallback cannot begin a JSON text: it starts with "No", which is neither a value nor `NaN`. */
  lemma FallbackNotJson()
    ensures !MayBeginJsonText(Fallback)
  {
    assert Fallback[0] == 'N';
    assert SkipJsonSpace(Fallback) == Fallback;
    assert Fallback[..3] != "NaN" by {
      assert Fallback[1] == 'o';
    }
  }

  /** With no candidates the text handed to `parse` is the fallback, which never parses. */
  lemma FallbackNeverParses(parse: string -> Option<Value>)
    requires JsonLoadsContract(parse)
    ensures parse(StripFences(Fallback)).None?
  {
    FallbackUnfenced();
    FallbackNotJson();
  }

  // ----- Conversation memory -----

  datatype TurnInput =
    | StaticContext
    | PlanAndLogs(plan: map<string, Doc>, logs: seq<Doc>)
    | SocraticPrompt(profile: Doc, plan: map<string, Doc>, logs: seq<Doc>, lastAdjustment: Option<Doc>)

  /** One `save_context` call: what was said and what was answered. */
  datatype Turn = Turn(input: TurnInput, output: string)

  /** `user_memory`: each user's saved turns. */
  type Memory = map<string, seq<Turn>>

  /** The model's answer: no candidates, the first candidate's text, or an exception. */
  datatype ModelReply = NoCandidates | Candidate(text: string) | CallFailed

  /** What the handler answers, and the memory and store it leaves. */
  datatype AdjustOutcome = AdjustOutcome(resp: Response, memory: Memory, store: Store)

  function Lookup(store: Store, path: Path): (d: Option<Doc>)
    ensures d.Some? <==> path in store
  {
    if path in store then Some(store[path]) else None
  }

  /** The turns saved before the model is called: the sentinel turn unless it is known to be saved, then the plan and logs. */
  function PreTurns(contextSaved: bool, plan: map<string, Doc>, logs: seq<Doc>): (t: seq<Turn>)
    ensures |t| == if contextSaved then 1 else 2
    ensures t[|t| - 1] == Turn(PlanAndLogs(plan, logs), "")
  {
    (if contextSaved then [] else [Turn(StaticContext, "true")]) + [Turn(PlanAndLogs(plan, logs), "")]
  }

  /** The text saved as the model's output: the candidate stripped, or the fallback. */
  function OutputText(reply: ModelReply): (out: string)
    requires !reply.CallFailed?
    ensures reply.NoCandidates? ==> out == Fallback
    ensures reply.Candidate? ==> |out| <= |reply.text| && (out == [] || (!IsSpace(out[0]) && !IsSpace(out[|out| - 1])))
  {
    if reply.Candidate? then StripShape(reply.text); Strip(reply.text) else Fallback
  }

  /** What the conversation with the model yields: the answer, the user's turns after it, and the document to store. */
  datatype Exchange = Exchange(resp: Response, turns: seq<Turn>, saved: Option<Doc>)

  /** The response body of a successful call. */
  function Success(adjustment: Value): (body: Doc)
    ensures body.Keys == {"status", "adjustment"}
    ensures body["status"] == Str("success") && body["adjustment"] == adjustment
  {
    map["status" := Str("success"), "adjustment" := adjustment]
  }

  /**
   * The part of the handler after the reads: save the sentinel and the
   * plan/logs turns, ask the model, save its output, parse it.
   */
  function Conversation(turns0: seq<Turn>, profile: Doc, plan: map<string, Doc>, logs: seq<Doc>, last: Option<Doc>,
                        contextSaved: bool, generate: (seq<Turn>, TurnInput) -> ModelReply,
                        parse: string -> Option<Value>): (x: Exchange)
    ensures x.saved.Some? <==> x.resp.Ok?
    ensures x.resp.Ok? || x.resp == GenericFailure
    ensures |turns0| < |x.turns|
  {
    var turns1 := turns0 + PreTurns(contextSaved, plan, logs);
    var prompt := SocraticPrompt(profile, plan, logs, last);
    Answer(turns1, prompt, generate(turns1, prompt), parse)
  }

  /** What follows the model's reply to `prompt`: save its output, strip the fences, parse. */
  function Answer(turns1: seq<Turn>, prompt: TurnInput, reply: ModelReply, parse: string -> Option<Value>): (x: Exchange)
    ensures x.saved.Some? <==> x.resp.Ok?
    ensures x.resp.Ok? || x.resp == GenericFailure
    ensures |x.turns| == |turns1| + (if reply.CallFailed? then 0 else 1) && x.turns[..|turns1|] == turns1
  {
    if reply.CallFailed? then Exchange(GenericFailure, turns1, None)
    else
      var output := OutputText(reply);
      var turns2 := turns1 + [Turn(prompt, output)];
      var parsed := parse(StripFences(output));
      if parsed.None? || !parsed.value.Dict? then Exchange(GenericFailure, turns2, None)
      else Exchange(Ok(Success(parsed.value)), turns2, Some(parsed.value.fields))
  }

  /** What the handler reads before it talks to the model. */
  datatype Readings = Readings(profile: Doc, plan: map<string, Doc>, last: Option<Doc>, logs: seq<Doc>)

  /**
   * The reads: the profile (a missing one fails, having no `.get`), the
   * diet plan by day, today's adjustment if any, and the window's logs
   * (which fail when the window leaves the calendar).
   */
  ghost function Read(store: Store, u: string, today: Date): (r: Option<Readings>)
    requires Valid(today)
    ensures r.Some? <==> UserPath(u) in store && Window(today).Some?
    ensures r.Some? ==> r.value.profile == store[UserPath(u)] && (r.value.last.Some? <==> AdjustmentPath(u, today) in store)
  {
    var profile := Lookup(store, UserPath(u));
    var logs := WindowLogs(store, u, today);
    if profile.None? || logs.None? then None
    else Some(Readings(profile.value, ChildMap(store, DietPlanColl(u)), Lookup(store, AdjustmentPath(u, today)), logs.value))
  }

  /** `user_memory` once the caller has an entry: an existing one is kept, a new one starts empty. */
  function Admit(memory: Memory, u: string): (m: Memory)
    ensures u in m
  {
    if u in memory then memory else memory[u := []]
  }

  /**
   * The handler for a signed-in caller `u` whose memory entry exists,
   * given what the reads produced and the key of today's adjustment.
   */
  function AdjustWith(memory: Memory, store: Store, u: string, key: Path, readings: Option<Readings>, contextSaved: bool,
                      generate: (seq<Turn>, TurnInput) -> ModelReply, parse: string -> Option<Value>): (r: AdjustOutcome)
    requires u in memory
    ensures r.resp.Ok? || r.resp == GenericFailure
    ensures readings.None? ==> r.memory == memory && r.store == store
    ensures r.store.Keys <= store.Keys + {key}
  {
    match readings
    case None => AdjustOutcome(GenericFailure, memory, store)
    case Some(r) =>
      var x := Conversation(memory[u], r.profile, r.plan, r.logs, r.last, contextSaved, generate, parse);
      AdjustOutcome(x.resp, memory[u := x.turns], if x.saved.Some? then store[key := x.saved.value] else store)
  }

  /** The whole handler, from the caller's uid and the state before to the answer and the state after. */
  ghost function Adjust(memory: Memory, store: Store, uid: Option<string>, today: Date, contextSaved: bool,
                        generate: (seq<Turn>, TurnInput) -> ModelReply, parse: string -> Option<Value>): (r: AdjustOutcome)
    requires Valid(today)
    ensures r.resp.Ok? || r.resp == GenericFailure || r.resp == Unauthorized
    ensures r.store.Keys <= store.Keys + (if SignedIn(uid) then {AdjustmentPath(uid.value, today)} else {})
  {
    if !SignedIn(uid) then AdjustOutcome(Unauthorized, memory, store)
    else
      var u := uid.value;
      AdjustWith(Admit(memory, u), store, u, AdjustmentPath(u, today), Read(store, u, today), contextSaved, generate, parse)
  }

  /** `m'` is `m` with `u`'s turns set to `t`: no other user's entry is added, dropped or changed. */
  predicate UpdatedAt(m: Memory, m': Memory, u: string, t: seq<Turn>) {
    m'.Keys == m.Keys + {u} && m'[u] == t && forall v :: v in m && v != u ==> m'[v] == m[v]
  }

  lemma UpdatedAtIs(m: Memory, m': Memory, u: string, t: seq<Turn>)
    requires UpdatedAt(m, m', u, t)
    ensures m' == m[u := t]
  {
  }

  // ----- Properties of the handler -----

  /**
   * Past the session check every error is the generic 500 and leaves the
   * store alone; a success returns the parsed dict and writes exactly it
   * at `key`.
   */
  lemma AdjustWithOutcome(memory: Memory, store: Store, u: string, key: Path, readings: Option<Readings>,
                          contextSaved: bool, generate: (seq<Turn>, TurnInput) -> ModelReply,
                          parse: string -> Option<Value>)
    requires u in memory
    ensures var r := AdjustWith(memory, store, u, key, readings, contextSaved, generate, parse);
      && (r.resp.HttpError? ==> r.resp == GenericFailure && r.store == store)
      && (r.resp.Ok? ==>
            && r.resp.content.Keys == {"status", "adjustment"}
            && r.resp.content["status"] == Str("success")
            && r.resp.content["adjustment"].Dict?
            && r.store == store[key := r.resp.content["adjustment"].fields])
  {
    if readings.Some? {
      var rd := readings.value;
      var turns1 := memory[u] + PreTurns(contextSaved, rd.plan, rd.logs);
      var prompt := SocraticPrompt(rd.profile, rd.plan, rd.logs, rd.last);
      AnswerOutcome(turns1, prompt, generate(turns1, prompt), parse);
    }
  }

  /** The answer is the generic 500 with nothing to store, or the success body with the parsed dict to store. */
  lemma AnswerOutcome(turns1: seq<Turn>, prompt: TurnInput, reply: ModelReply, parse: string -> Option<Value>)
    ensures var x := Answer(turns1, prompt, reply, parse);
      && (x.resp.HttpError? ==> x.resp == GenericFailure && x.saved.None?)
      && (x.resp.Ok? ==>
            && x.resp.content.Keys == {"status", "adjustment"}
            && x.resp.content["status"] == Str("success")
            && x.resp.content["adjustment"].Dict?
            && x.saved == Some(x.resp.content["adjustment"].fields))
  {
    if !reply.CallFailed? {
      var parsed := parse(StripFences(OutputText(reply)));
      if parsed.Some? {
      }
    }
  }

  /** Past the session check only `u`'s entry changes, and only by turns appended to it. */
  lemma AdjustWithMemory(memory: Memory, store: Store, u: string, key: Path, readings: Option<Readings>,
                         contextSaved: bool, generate: (seq<Turn>, TurnInput) -> ModelReply,
                         parse: string -> Option<Value>)
    requires u in memory
    ensures var r := AdjustWith(memory, store, u, key, readings, contextSaved, generate, parse);
      && r.memory.Keys == memory.Keys
      && (forall v :: v in memory && v != u ==> r.memory[v] == memory[v])
      && |memory[u]| <= |r.memory[u]| && r.memory[u][..|memory[u]|] == memory[u]
  {
    if readings.Some? {
      var rd := readings.value;
      ConversationExtends(memory[u], rd.profile, rd.plan, rd.logs, rd.last, contextSaved, generate, parse);
    }
  }

  /** The conversation only appends to the turns it starts from. */
  lemma ConversationExtends(turns0: seq<Turn>, profile: Doc, plan: map<string, Doc>, logs: seq<Doc>, last: Option<Doc>,
                            contextSaved: bool, generate: (seq<Turn>, TurnInput) -> ModelReply,
                            parse: string -> Option<Value>)
    ensures var x := Conversation(turns0, profile, plan, logs, last, contextSaved, generate, parse);
      |turns0| <= |x.turns| && x.turns[..|turns0|] == turns0
  {
    var turns1 := turns0 + PreTurns(contextSaved, plan, logs);
    var prompt := SocraticPrompt(profile, plan, logs, last);
    var x := Answer(turns1, prompt, generate(turns1, prompt), parse);
    assert turns1[..|turns0|] == turns0;
    assert x.turns[..|turns1|] == turns1;
  }

  /**
   * Once the reads succeed, `u`'s memory grows by the sentinel turn
   * (unless known saved), the plan-and-logs turn, and, unless the model
   * call fails, the prompt-and-output turn, whether or not the output
   * then parses; the model is asked with the history that already holds
   * the plan-and-logs turn, and a failed call answers the generic 500.
   */
  lemma AdjustWithTurns(memory: Memory, store: Store, u: string, key: Path, rd: Readings,
                        contextSaved: bool, generate: (seq<Turn>, TurnInput) -> ModelReply,
                        parse: string -> Option<Value>)
    requires u in memory
    ensures var r := AdjustWith(memory, store, u, key, Some(rd), contextSaved, generate, parse);
      var before := memory[u];
      var k := |before| + (if contextSaved then 0 else 1);
      var prompt := SocraticPrompt(rd.profile, rd.plan, rd.logs, rd.last);
      var reply := generate(before + PreTurns(contextSaved, rd.plan, rd.logs), prompt);
      && |r.memory[u]| == k + (if reply.CallFailed? then 1 else 2)
      && r.memory[u][..|before|] == before
      && (!contextSaved ==> r.memory[u][|before|] == Turn(StaticContext, "true"))
      && r.memory[u][k] == Turn(PlanAndLogs(rd.plan, rd.logs), "")
      && (!reply.CallFailed? ==> r.memory[u][k + 1] == Turn(prompt, OutputText(reply)))
      && (reply.CallFailed? ==> r.resp == GenericFailure)
  {
    var before := memory[u];
    var pre := PreTurns(contextSaved, rd.plan, rd.logs);
    var turns1 := before + pre;
    var prompt := SocraticPrompt(rd.profile, rd.plan, rd.logs, rd.last);
    var reply := generate(turns1, prompt);
    AnswerTurns(turns1, prompt, reply, parse);
    var t := AdjustWith(memory, store, u, key, Some(rd), contextSaved, generate, parse).memory[u];
    var extra := if reply.CallFailed? then [] else [Turn(prompt, OutputText(reply))];
    assert t == before + (pre + extra);
    assert t[..|before|] == before;
  }

  /** The turns after the model's reply: those before it, plus the prompt and output unless the call failed. */
  lemma AnswerTurns(turns1: seq<Turn>, prompt: TurnInput, reply: ModelReply, parse: string -> Option<Value>)
    ensures Answer(turns1, prompt, reply, parse).turns
         == turns1 + (if reply.CallFailed? then [] else [Turn(prompt, OutputText(reply))])
    ensures reply.CallFailed? ==> Answer(turns1, prompt, reply, parse).resp == GenericFailure
  {
  }

  /**
   * With no candidates the fallback text is saved as the output, fails
   * to parse, and nothing is written; the memory still grows.
   */
  lemma AdjustWithFallback(memory: Memory, store: Store, u: string, key: Path, readings: Option<Readings>,
                           contextSaved: bool, generate: (seq<Turn>, TurnInput) -> ModelReply,
                           parse: string -> Option<Value>)
    requires u in memory
    requires JsonLoadsContract(parse)
    requires forall h, p :: generate(h, p) == NoCandidates
    ensures var r := AdjustWith(memory, store, u, key, readings, contextSaved, generate, parse);
      && r.resp == GenericFailure
      && r.store == store
      && (readings.Some? ==>
            && |r.memory[u]| == |memory[u]| + (if contextSaved then 2 else 3)
            && r.memory[u][|r.memory[u]| - 1].output == Fallback)
  {
    if readings.Some? {
      var rd := readings.value;
      var turns1 := memory[u] + PreTurns(contextSaved, rd.plan, rd.logs);
      var prompt := SocraticPrompt(rd.profile, rd.plan, rd.logs, rd.last);
      assert generate(turns1, prompt) == NoCandidates;
      AnswerFallback(turns1, prompt, parse);
      assert |PreTurns(contextSaved, rd.plan, rd.logs)| == (if contextSaved then 1 else 2);
    }
  }

  /** With no candidates the fallback is saved as the output and the answer is the generic 500. */
  lemma AnswerFallback(turns1: seq<Turn>, prompt: TurnInput, parse: string -> Option<Value>)
    requires JsonLoadsContract(parse)
    ensures Answer(turns1, prompt, NoCandidates, parse) == Exchange(GenericFailure, turns1 + [Turn(prompt, Fallback)], None)
  {
    FallbackNeverParses(parse);
  }

  /** Without a uid the answer is 401 and neither the memory nor the store changes; with one it is never 401. */
  lemma AdjustUnauthorized(memory: Memory, store: Store, uid: Option<string>, today: Date, contextSaved: bool,
                           generate: (seq<Turn>, TurnInput) -> ModelReply, parse: string -> Option<Value>)
    requires Valid(today)
    ensures var r := Adjust(memory, store, uid, today, contextSaved, generate, parse);
      && (r.resp == Unauthorized <==> !SignedIn(uid))
      && (!SignedIn(uid) ==> r.memory == memory && r.store == store)
  {
    if SignedIn(uid) {
      var u := uid.value;
      AdjustWithOutcome(Admit(memory, u), store, u, AdjustmentPath(u, today), Read(store, u, today),
                        contextSaved, generate, parse);
    }
  }

  /**
   * Every error is the 401 or the one generic 500, and leaves the store
   * as it was; a success writes the caller's `aiAdjustment/<today>`
   * document, and only it, with exactly the adjustment it returns.
   */
  lemma AdjustStoresOnlyOnSuccess(memory: Memory, store: Store, uid: Option<string>, today: Date, contextSaved: bool,
                                  generate: (seq<Turn>, TurnInput) -> ModelReply, parse: string -> Option<Value>)
    requires Valid(today)
    ensures var r := Adjust(memory, store, uid, today, contextSaved, generate, parse);
      && (r.resp.HttpError? ==> (r.resp == Unauthorized || r.resp == GenericFailure) && r.store == store)
      && (r.resp.Ok? ==>
            && SignedIn(uid)
            && r.resp.content.Keys == {"status", "adjustment"}
            && r.resp.content["status"] == Str("success")
            && r.resp.content["adjustment"].Dict?
            && r.store == store[AdjustmentPath(uid.value, today) := r.resp.content["adjustment"].fields])
  {
    if SignedIn(uid) {
      var u := uid.value;
      AdjustWithOutcome(Admit(memory, u), store, u, AdjustmentPath(u, today), Read(store, u, today),
                        contextSaved, generate, parse);
    }
  }

  /**
   * Only the caller's memory entry changes: it is created empty when absent,
   * an existing one is kept and only extended, and every other user's entry
   * stays as it was.
   */
  lemma AdjustMemoryIsolation(memory: Memory, store: Store, uid: Option<string>, today: Date, contextSaved: bool,
                              generate: (seq<Turn>, TurnInput) -> ModelReply, parse: string -> Option<Value>)
    requires Valid(today)
    ensures var r := Adjust(memory, store, uid, today, contextSaved, generate, parse);
      && (forall v :: (!SignedIn(uid) || v != uid.value) ==> (v in r.memory <==> v in memory))
      && (forall v :: v in memory && (!SignedIn(uid) || v != uid.value) ==> r.memory[v] == memory[v])
      && (SignedIn(uid) ==> uid.value in r.memory)
      && (SignedIn(uid) && uid.value in memory ==>
            |memory[uid.value]| <= |r.memory[uid.value]| && r.memory[uid.value][..|memory[uid.value]|] == memory[uid.value])
  {
    if SignedIn(uid) {
      var u := uid.value;
      AdjustWithMemory(Admit(memory, u), store, u, AdjustmentPath(u, today), Read(store, u, today),
                       contextSaved, generate, parse);
    }
  }

  /**
   * A caller with no profile document, or whose window reaches before
   * 0001-01-01, gets the generic 500; the store is untouched and the only
   * memory change is the entry created for the caller.
   */
  lemma AdjustReadFails(memory: Memory, store: Store, uid: string, today: Date, contextSaved: bool,
                        generate: (seq<Turn>, TurnInput) -> ModelReply, parse: string -> Option<Value>)
    requires Valid(today) && uid != ""
    requires UserPath(uid) !in store || (today.year == 1 && today.month == 1 && today.day <= 6)
    ensures Adjust(memory, store, Some(uid), today, contextSaved, generate, parse)
         == AdjustOutcome(GenericFailure, Admit(memory, uid), store)
  {
    WindowExists(today);
    assert Read(store, uid, today).None?;
  }

  /**
   * For a caller whose reads succeed, the turns are saved as described
   * above, and the prompt carries the document at the very key the
   * adjustment is written to.
   */
  lemma AdjustTurns(memory: Memory, store: Store, uid: string, today: Date, contextSaved: bool,
                    generate: (seq<Turn>, TurnInput) -> ModelReply, parse: string -> Option<Value>)
    requires Valid(today) && uid != ""
    requires Read(store, uid, today).Some?
    ensures var r := Adjust(memory, store, Some(uid), today, contextSaved, generate, parse);
      var rd := Read(store, uid, today).value;
      var before := Admit(memory, uid)[uid];
      var k := |before| + (if contextSaved then 0 else 1);
      var prompt := SocraticPrompt(rd.profile, rd.plan, rd.logs, Lookup(store, AdjustmentPath(uid, today)));
      var reply := generate(before + PreTurns(contextSaved, rd.plan, rd.logs), prompt);
      && uid in r.memory
      && |r.memory[uid]| == k + (if reply.CallFailed? then 1 else 2)
      && r.memory[uid][k] == Turn(PlanAndLogs(rd.plan, rd.logs), "")
      && (!reply.CallFailed? ==> r.memory[uid][k + 1] == Turn(prompt, OutputText(reply)))
  {
    var rd := Read(store, uid, today).value;
    assert rd.last == Lookup(store, AdjustmentPath(uid, today));
    AdjustWithTurns(Admit(memory, uid), store, uid, AdjustmentPath(uid, today), rd, contextSaved, generate, parse);
  }

  /** With no candidates nothing is written, whatever the caller. */
  lemma AdjustFallback(memory: Memory, store: Store, uid: Option<string>, today: Date, contextSaved: bool,
                       generate: (seq<Turn>, TurnInput) -> ModelReply, parse: string -> Option<Value>)
    requires Valid(today)
    requires JsonLoadsContract(parse)
    requires forall h, p :: generate(h, p) == NoCandidates
    ensures var r := Adjust(memory, store, uid, today, contextSaved, generate, parse);
      r.resp.HttpError? && r.store == store
  {
    if SignedIn(uid) {
      var u := uid.value;
      AdjustWithFallback(Admit(memory, u), store, u, AdjustmentPath(u, today), Read(store, u, today),
                         contextSaved, generate, parse);
    }
  }

  /** The handler with its module-level `user_memory`. */
  class AdjustmentRouter {
    var userMemory: Memory

    constructor ()
      ensures userMemory == map[]
    {
      userMemory := map[];
    }

    /** `ai_adjustment` */
    method Handle(db: DocumentStore, uid: Option<string>, today: Date, contextSaved: bool,
                  generate: (seq<Turn>, TurnInput) -> ModelReply, parse: string -> Option<Value>)
      returns (resp: Response)
      requires Valid(today)
      modifies this, db
      ensures AdjustOutcome(resp, userMemory, db.docs)
           == Adjust(old(userMemory), old(db.docs), uid, today, contextSaved, generate, parse)
    {
      if !SignedIn(uid) {
        return Unauthorized;
      }
      var u := uid.value;
      if u !in userMemory {
        userMemory := userMemory[u := []];
      }
      resp := Serve(db, u, today, contextSaved, generate, parse);
    }

    /** Everything after the memory entry exists: the reads, the conversation, the write. */
    method Serve(db: DocumentStore, u: string, today: Date, contextSaved: bool,
                 generate: (seq<Turn>, TurnInput) -> ModelReply, parse: string -> Option<Value>)
      returns (resp: Response)
      requires Valid(today) && u in userMemory
      modifies this, db
      ensures AdjustOutcome(resp, userMemory, db.docs)
           == AdjustWith(old(userMemory), old(db.docs), u, AdjustmentPath(u, today), Read(old(db.docs), u, today),
                         contextSaved, generate, parse)
    {
      var r := Gather(db, u, today);
      if r.None? {
        return GenericFailure;
      }
      var saved;
      ghost var m0 := userMemory;
      resp, saved := Converse(u, r.value.profile, r.value.plan, r.value.logs, r.value.last, contextSaved, generate, parse);
      UpdatedAtIs(m0, userMemory, u, userMemory[u]);
      if saved.Some? {
        db.Set(AdjustmentPath(u, today), saved.value);
      }
    }

    /** The reads, in the handler's order; none of them changes anything. */
    method Gather(db: DocumentStore, u: string, today: Date) returns (r: Option<Readings>)
      requires Valid(today)
      ensures r == Read(db.docs, u, today)
    {
      var profile := db.Get(UserPath(u));
      if profile.None? {
        return None;
      }
      var plan := ChildMap(db.docs, DietPlanColl(u));
      var last := db.Get(AdjustmentPath(u, today));
      var logs := CollectMealLogs(db, u, today);
      if logs.None? {
        return None;
      }
      r := Some(Readings(profile.value, plan, last, logs.value));
    }

    /** The memory appends and the model call, on the caller's own entry. */
    method Converse(u: string, profile: Doc, plan: map<string, Doc>, logs: seq<Doc>, last: Option<Doc>,
                    contextSaved: bool, generate: (seq<Turn>, TurnInput) -> ModelReply,
                    parse: string -> Option<Value>)
      returns (resp: Response, saved: Option<Doc>)
      requires u in userMemory
      modifies this
      ensures var x := Conversation(old(userMemory)[u], profile, plan, logs, last, contextSaved, generate, parse);
        resp == x.resp && saved == x.saved && UpdatedAt(old(userMemory), userMemory, u, x.turns)
    {
      ghost var turns0 := userMemory[u];
      if !contextSaved {
        SaveContext(u, StaticContext, "true");
      }
      SaveContext(u, PlanAndLogs(plan, logs), "");
      assert userMemory[u] == turns0 + PreTurns(contextSaved, plan, logs);
      var prompt := SocraticPrompt(profile, plan, logs, last);
      var reply := generate(userMemory[u], prompt);
      resp, saved := Respond(u, prompt, reply, parse);
    }

    /** Saves the model's output and parses it. */
    method Respond(u: string, prompt: TurnInput, reply: ModelReply, parse: string -> Option<Value>)
      returns (resp: Response, saved: Option<Doc>)
      requires u in userMemory
      modifies this
      ensures var x := Answer(old(userMemory)[u], prompt, reply, parse);
        resp == x.resp && saved == x.saved && UpdatedAt(old(userMemory), userMemory, u, x.turns)
    {
      if reply.CallFailed? {
        return GenericFailure, None;
      }
      var output := if reply.Candidate? then Strip(reply.text) else Fallback;
      SaveContext(u, prompt, output);
      var parsed := parse(StripFences(output));
      if parsed.None? || !parsed.value.Dict? {
        return GenericFailure, None;
      }
      resp, saved := Ok(Success(parsed.value)), Some(parsed.value.fields);
    }

    /** `memory.save_context(...)`: one more turn at the end of `u`'s memory; other users' memory is untouched. */
    method SaveContext(u: string, input: TurnInput, output: string)
      requires u in userMemory
      modifies this
      ensures UpdatedAt(old(userMemory), userMemory, u, old(userMemory)[u] + [Turn(input, output)])
    {
      userMemory := userMemory[u := userMemory[u] + [Turn(input, output)]];
    }
  }
}
