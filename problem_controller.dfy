/** `ProblemController.createProblem`: request validation, the defaults of
    the inserted problem row, the flattening of the AI reply into tagged
    affirmation entries, and the canned list sent when generation fails.
    The database is not part of this model: what the problem insert returns
    is a parameter, and the affirmation insert is recorded as the rows sent. */
module ProblemController {
  import opened Wrappers
  import opened Json
  import opened Http
  import AiService

  const RequiredMessage: string := "Category, title, and description are required"

  /** The fields of the request body; `None` is `undefined`. */
  datatype ProblemBody = ProblemBody(
    category_id: Option<Json>, title: Option<Json>, description: Option<Json>,
    severity: Option<Json>, is_public: Option<Json>)

  /** The row sent to the `problems` table. */
  datatype ProblemInsert = ProblemInsert(
    user_id: string, category_id: Json, title: Json, description: Json,
    severity: Json, is_public: Json)

  /** The row the insert returns. `category` is the joined category's name,
      `None` when the join yields `null`. */
  datatype ProblemRecord = ProblemRecord(id: Json, severity: Json, category: Option<Json>)

  /** The `type` tag of an affirmation entry. */
  datatype Kind = Positive | Solution | Motivational {
    function Tag(): string {
      match this
      case Positive => "positive"
      case Solution => "solution"
      case Motivational => "motivational"
    }
  }

  /** `{ content, type }`: an entry of the reply. */
  datatype Entry = Entry(content: Json, kind: Kind)

  /** `{ problem_id, content, type }`: a row sent to the `affirmations` table. */
  datatype StoredEntry = StoredEntry(problem_id: Json, content: Json, kind: Kind)

  datatype Created = Created(problem: ProblemRecord, affirmations: seq<Entry>)

  /** The reply, together with what was written: the problem row sent to the
      store (if any) and the affirmation rows sent to the store (if any). */
  datatype CreateOutcome = CreateOutcome(
    reply: Reply<Created>, problemInsert: Option<ProblemInsert>, storedRows: Option<seq<StoredEntry>>)

  /** `items.map(content => ({ content, type }))`. */
  function Tagged(items: seq<Json>, k: Kind): (r: seq<Entry>)
    ensures |r| == |items|
    ensures forall i :: 0 <= i < |items| ==> r[i] == Entry(items[i], k)
  {
    seq(|items|, i requires 0 <= i < |items| => Entry(items[i], k))
  }

  /** The three arrays of an AI reply; `None` when one is missing or not an
      array, where `.map` throws a TypeError. */
  function Arrays(ai: Json): Option<(seq<Json>, seq<Json>, seq<Json>)> {
    match (Get(ai, "affirmations"), Get(ai, "solutions"), Get(ai, "motivational"))
    case (Some(JArr(a)), Some(JArr(s)), Some(JArr(m))) => Some((a, s, m))
    case _ => None
  }

  /** The displayed list `formattedAffirmations`: affirmations tagged
      `positive`, then solutions tagged `solution`, then motivational
      statements tagged `motivational`, each group in its own order. */
  function Flatten(ai: Json): (r: Option<seq<Entry>>)
    ensures r.Some? <==> Arrays(ai).Some?
    ensures r.Some? ==>
      var (a, s, m) := Arrays(ai).value;
      && |r.value| == |a| + |s| + |m|
      && (forall i :: 0 <= i < |a| ==> r.value[i] == Entry(a[i], Positive))
      && (forall i :: 0 <= i < |s| ==> r.value[|a| + i] == Entry(s[i], Solution))
      && (forall i :: 0 <= i < |m| ==> r.value[|a| + |s| + i] == Entry(m[i], Motivational))
  {
    match Arrays(ai)
    case None => None
    case Some((a, s, m)) => Some(Tagged(a, Positive) + Tagged(s, Solution) + Tagged(m, Motivational))
  }

  function StoredTagged(id: Json, items: seq<Json>, k: Kind): (r: seq<StoredEntry>)
    ensures |r| == |items|
    ensures forall i :: 0 <= i < |items| ==> r[i] == StoredEntry(id, items[i], k)
  {
    seq(|items|, i requires 0 <= i < |items| => StoredEntry(id, items[i], k))
  }

  /** `affirmationsToInsert`: the same entries, each carrying the problem's id. */
  function StoredRows(id: Json, ai: Json): (r: Option<seq<StoredEntry>>)
    ensures r.Some? <==> Arrays(ai).Some?
    ensures r.Some? ==> forall e :: e in r.value ==> e.problem_id == id
  {
    match Arrays(ai)
    case None => None
    case Some((a, s, m)) =>
      Some(StoredTagged(id, a, Positive) + StoredTagged(id, s, Solution) + StoredTagged(id, m, Motivational))
  }

  /** A stored row with its `problem_id` dropped. */
  function Unstored(rows: seq<StoredEntry>): seq<Entry> {
    seq(|rows|, i requires 0 <= i < |rows| => Entry(rows[i].content, rows[i].kind))
  }

  lemma UnstoredTagged(id: Json, items: seq<Json>, k: Kind)
    ensures Unstored(StoredTagged(id, items, k)) == Tagged(items, k)
  {
  }

  lemma UnstoredAppend(x: seq<StoredEntry>, y: seq<StoredEntry>)
    ensures Unstored(x + y) == Unstored(x) + Unstored(y)
  {
  }

  /** The displayed list is the stored list without `problem_id`. */
  lemma DisplayedIsStoredWithoutId(id: Json, ai: Json)
    ensures StoredRows(id, ai).Some? <==> Flatten(ai).Some?
    ensures StoredRows(id, ai).Some? ==> Unstored(StoredRows(id, ai).value) == Flatten(ai).value
  {
    if Arrays(ai).Some? {
      var (a, s, m) := Arrays(ai).value;
      var sa, ss, sm := StoredTagged(id, a, Positive), StoredTagged(id, s, Solution), StoredTagged(id, m, Motivational);
      UnstoredAppend(sa + ss, sm);
      UnstoredAppend(sa, ss);
      UnstoredTagged(id, a, Positive);
      UnstoredTagged(id, s, Solution);
      UnstoredTagged(id, m, Motivational);
    }
  }

  /** The list sent when AI generation throws. */
  const FallbackEntries: seq<Entry> := [
    Entry(JStr("I am capable of overcoming this challenge"), Positive),
    Entry(JStr("I have the strength to work through this situation"), Positive),
    Entry(JStr("I am worthy of positive change and growth"), Positive),
    Entry(JStr("I trust in my ability to find solutions"), Positive),
    Entry(JStr("I am resilient and can handle whatever comes my way"), Positive),
    Entry(JStr("Break down the problem into smaller, manageable steps"), Solution),
    Entry(JStr("Seek support from trusted friends, family, or professionals"), Solution),
    Entry(JStr("Practice self-care and maintain a positive mindset"), Solution),
    Entry(JStr("Every challenge is an opportunity for growth and learning"), Motivational),
    Entry(JStr("You have overcome difficulties before and you can do it again"), Motivational)
  ]

  /** The controller's canned list is exactly the flattening of the
      service's fallback set: 5 `positive`, 3 `solution`, 2 `motivational`. */
  lemma FallbackEntriesFlattenFallbackSet()
    ensures Flatten(AiService.FallbackSet) == Some(FallbackEntries)
    ensures forall i :: 0 <= i < 5 ==> FallbackEntries[i].kind == Positive
    ensures forall i :: 5 <= i < 8 ==> FallbackEntries[i].kind == Solution
    ensures forall i :: 8 <= i < 10 ==> FallbackEntries[i].kind == Motivational
  {
    AiService.FallbackSetShape();
    var a, s, m := AiService.FallbackAffirmations, AiService.FallbackSolutions, AiService.FallbackMotivational;
    assert Arrays(AiService.FallbackSet) == Some((Strings(a).items, Strings(s).items, Strings(m).items));
    var r := Flatten(AiService.FallbackSet).value;
    assert |r| == 10;
    forall i | 0 <= i < 10 ensures r[i] == FallbackEntries[i] {
      if i < 5 {
        assert r[i] == Entry(JStr(a[i]), Positive);
      } else if i < 8 {
        assert r[5 + (i - 5)] == Entry(JStr(s[i - 5]), Solution);
      } else {
        assert r[8 + (i - 8)] == Entry(JStr(m[i - 8]), Motivational);
      }
    }
    assert r == FallbackEntries;
  }

  /** The row `createProblem` inserts: `severity || 5`, `is_public || false`. */
  function InsertRow(userId: string, body: ProblemBody): ProblemInsert
    requires Truthy(body.category_id) && Truthy(body.title) && Truthy(body.description)
  {
    ProblemInsert(userId, body.category_id.value, body.title.value, body.description.value,
      OrElse(body.severity, JNum(5)), OrElse(body.is_public, JBool(false)))
  }

  /** The default of `severity` applies to every falsy value, `0` included;
      a truthy `severity` or `is_public` is kept as given. */
  lemma InsertRowDefaults(userId: string, body: ProblemBody)
    requires Truthy(body.category_id) && Truthy(body.title) && Truthy(body.description)
    ensures Truthy(body.severity) ==> Some(InsertRow(userId, body).severity) == body.severity
    ensures !Truthy(body.severity) ==> InsertRow(userId, body).severity == JNum(5)
    ensures body.severity == Some(JNum(0)) ==> InsertRow(userId, body).severity == JNum(5)
    ensures Truthy(body.is_public) ==> Some(InsertRow(userId, body).is_public) == body.is_public
    ensures !Truthy(body.is_public) ==> InsertRow(userId, body).is_public == JBool(false)
  {
  }

  /** What `createProblem` hands to the service: the joined category's
      name, the request's title and description, the stored severity. */
  function AiInput(problem: ProblemRecord, body: ProblemBody): AiService.ProblemData
    requires problem.category.Some? && body.title.Some? && body.description.Some?
  {
    AiService.ProblemData(problem.category.value, body.title.value, body.description.value, problem.severity)
  }

  /** The reply once the problem row exists: the flattened AI content, or
      the canned list when generation throws (a failed model call, a null
      category join, or a reply whose arrays cannot be mapped). The
      affirmation insert's own error is only logged, so it is not an input. */
  function AfterInsert(problem: ProblemRecord, body: ProblemBody, model: AiService.Model, parse: AiService.Decoder)
    : (Reply<Created>, Option<seq<StoredEntry>>)
    requires body.title.Some? && body.description.Some?
  {
    var fallback := (Reply(201, Payload(Created(problem, FallbackEntries))), None);
    match problem.category
    case None => fallback
    case Some(name) =>
      match AiService.GenerateAffirmations(AiInput(problem, body), model, parse)
      case Failure(_) => fallback
      case Success(ai) =>
        match Flatten(ai)
        case None => fallback
        case Some(shown) => (Reply(201, Payload(Created(problem, shown))), StoredRows(problem.id, ai))
  }

  /** `ProblemController.createProblem`, with `inserted` the store's answer
      to the problem insert. */
  function CreateProblem(userId: string, body: ProblemBody, inserted: Result<ProblemRecord, string>,
                         model: AiService.Model, parse: AiService.Decoder): (r: CreateOutcome)
    ensures !(Truthy(body.category_id) && Truthy(body.title) && Truthy(body.description)) <==>
      r.reply == Reply(400, ErrorBody(RequiredMessage)) && r.problemInsert.None?
    ensures r.problemInsert.Some? ==> r.problemInsert == Some(InsertRow(userId, body))
    ensures Truthy(body.category_id) && Truthy(body.title) && Truthy(body.description) ==>
      r.problemInsert == Some(InsertRow(userId, body))
    ensures Truthy(body.category_id) && Truthy(body.title) && Truthy(body.description) && inserted.Failure? ==>
      r.reply == Reply(400, ErrorBody(inserted.error)) && r.storedRows.None?
    ensures r.storedRows.Some? ==> inserted.Success? && forall e :: e in r.storedRows.value ==> e.problem_id == inserted.value.id
    ensures r.storedRows.Some? ==> r.reply == Reply(201, Payload(Created(inserted.value, Unstored(r.storedRows.value))))
    ensures r.reply.status == 201 ==> inserted.Success? && r.reply.body.Payload? && r.reply.body.value.problem == inserted.value
    ensures r.reply.status == 201 && r.storedRows.None? ==> r.reply.body.value.affirmations == FallbackEntries
    ensures Truthy(body.category_id) && Truthy(body.title) && Truthy(body.description) && inserted.Success? ==>
      if inserted.value.category.None? then
        r.reply == Reply(201, Payload(Created(inserted.value, FallbackEntries))) && r.storedRows.None?
      else
        var ai := AiService.GenerateAffirmations(AiInput(inserted.value, body), model, parse);
        && r.reply.status == 201
        && (ai.Failure? || Arrays(ai.value).None? <==> r.storedRows.None?)
        && (ai.Success? && Arrays(ai.value).Some? ==> r.storedRows == StoredRows(inserted.value.id, ai.value))
  {
    if !(Truthy(body.category_id) && Truthy(body.title) && Truthy(body.description)) then
      CreateOutcome(Reply(400, ErrorBody(RequiredMessage)), None, None)
    else
      var row := InsertRow(userId, body);
      match inserted
      case Failure(message) => CreateOutcome(Reply(400, ErrorBody(message)), Some(row), None)
      case Success(problem) =>
        var (reply, stored) := AfterInsert(problem, body, model, parse);
        if stored.Some? then
          var ai := AiService.GenerateAffirmations(AiInput(problem, body), model, parse).value;
          DisplayedIsStoredWithoutId(problem.id, ai);
          CreateOutcome(reply, Some(row), stored)
        else
          CreateOutcome(reply, Some(row), stored)
  }

  /** The user sees the same ten entries whether the model call fails (the
      service rethrows and the controller answers with its canned list) or
      the reply cannot be decoded (the service answers with its fallback
      set, which the controller flattens and stores). */
  lemma {:induction false} FailuresShowFallbackEntries(userId: string, body: ProblemBody, problem: ProblemRecord,
                                                       model: AiService.Model, parse: AiService.Decoder)
    requires Truthy(body.category_id) && Truthy(body.title) && Truthy(body.description)
    requires problem.category.Some?
    requires var reply := model(AiService.FullSetPrompt(AiInput(problem, body)));
      reply.Failure? || AiService.NormalizeReply(reply.value, parse) == AiService.FallbackSet
    ensures CreateProblem(userId, body, Success(problem), model, parse).reply
      == Reply(201, Payload(Created(problem, FallbackEntries)))
    ensures model(AiService.FullSetPrompt(AiInput(problem, body))).Failure?
      <==> CreateProblem(userId, body, Success(problem), model, parse).storedRows.None?
  {
    FallbackEntriesFlattenFallbackSet();
    DisplayedIsStoredWithoutId(problem.id, AiService.FallbackSet);
  }

  /** A `null` category join makes `problem.problem_categories.name` throw
      before the service is called: the canned list, nothing stored. */
  lemma NullCategoryShowsFallbackEntries(userId: string, body: ProblemBody, problem: ProblemRecord,
                                         model: AiService.Model, parse: AiService.Decoder)
    requires Truthy(body.category_id) && Truthy(body.title) && Truthy(body.description)
    requires problem.category.None?
    ensures CreateProblem(userId, body, Success(problem), model, parse).reply
      == Reply(201, Payload(Created(problem, FallbackEntries)))
    ensures CreateProblem(userId, body, Success(problem), model, parse).storedRows.None?
  {
  }

  /** A decoded reply lacking one of the three arrays makes `.map` throw a
      TypeError, which the controller catches: the canned list, nothing
      stored. */
  lemma UnmappableReplyShowsFallbackEntries(userId: string, body: ProblemBody, problem: ProblemRecord,
                                            model: AiService.Model, parse: AiService.Decoder, ai: Json)
    requires Truthy(body.category_id) && Truthy(body.title) && Truthy(body.description)
    requires problem.category.Some?
    requires AiService.GenerateAffirmations(AiInput(problem, body), model, parse) == Success(ai)
    requires Arrays(ai).None?
    ensures CreateProblem(userId, body, Success(problem), model, parse).reply
      == Reply(201, Payload(Created(problem, FallbackEntries)))
    ensures CreateProblem(userId, body, Success(problem), model, parse).storedRows.None?
  {
  }

  /** When the service answers with arrays, those arrays are what is stored
      (under the new problem's id) and what is shown, whatever the store
      says about the affirmation insert. */
  lemma ServiceArraysShownAndStored(userId: string, body: ProblemBody, problem: ProblemRecord,
                                    model: AiService.Model, parse: AiService.Decoder, ai: Json)
    requires Truthy(body.category_id) && Truthy(body.title) && Truthy(body.description)
    requires problem.category.Some?
    requires AiService.GenerateAffirmations(AiInput(problem, body), model, parse) == Success(ai)
    requires Arrays(ai).Some?
    ensures CreateProblem(userId, body, Success(problem), model, parse).storedRows == StoredRows(problem.id, ai)
    ensures CreateProblem(userId, body, Success(problem), model, parse).reply
      == Reply(201, Payload(Created(problem, Flatten(ai).value)))
  {
  }
}
