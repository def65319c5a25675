/**
 * The request handlers (internal/handlers/handlers.go) over the DataStore
 * interface (internal/data/models.go:39-53).
 *
 * Store is the state behind the interface, either implementation; its
 * functions are the interface's contract, stated once for both, with the
 * places where the two implementations differ spelled out.  Each handler
 * is a pure function from (store state, path ids, decoded body, request
 * environment) to (response, new store state); the class Handler performs
 * the same steps as the Go code, one store call at a time, and each of its
 * methods is proved to behave as its function.
 *
 * HTTP decoding is reduced to Request (Malformed when the body does not
 * decode), encoding to Response (a status and the record echoed, if any);
 * error message texts are not modelled.
 */
module Handlers {
  import opened Records
  import Listing
  import IdGen
  import Decimal
  import MemoryStore
  import JsonStore

  const StatusOK := 200
  const StatusCreated := 201
  const StatusNoContent := 204
  const StatusBadRequest := 400
  const StatusNotFound := 404
  const StatusInternalServerError := 500

  /** A request body after json.Decode: Malformed when decoding failed. */
  datatype Request<T> = Malformed | Payload(value: T)

  /** What one request sees of the world: the clock, the random source, whether a file save succeeds. */
  datatype Env = Env(now: Time, entropy: IdGen.Entropy, saveOk: bool)

  datatype Response<T> = Response(status: int, body: Option<T>)

  /** A response without a body: the error responses and 204. */
  function Reject<T>(status: int): Response<T> {
    Response(status, None)
  }

  /** The contents of whichever DataStore the handler was built with. */
  datatype Store = Volatile(mem: MemoryStore.MemState) | Durable(file: JsonStore.JsonState)
  {
    ghost predicate Valid() {
      if Volatile? then mem.Valid() else file.Valid()
    }

    function Themes(): map<string, Theme> {
      if Volatile? then mem.themes else file.themes
    }

    /** What a change that went through returns: nil in memory, saveToFile's outcome on file. */
    function Saved(saveOk: bool): (r: Outcome)
      ensures r.Failed? <==> Durable? && !saveOk
      ensures r.Failed? ==> r.error == SaveFailed
    {
      if Volatile? then Done else JsonStore.SaveResult(saveOk)
    }

    function GetTheme(id: string): (r: Result<Theme>)
      ensures r.Ok? <==> id in Themes()
      ensures r.Ok? ==> r.value == Themes()[id]
      ensures r.Err? ==> r.error == NotFound
      ensures Valid() && r.Ok? ==> r.value.id == id
    {
      if Volatile? then mem.GetTheme(id) else file.GetTheme(id)
    }

    /** GetAnswer(id, themeID): found only through the theme the answer belongs to. */
    function GetAnswer(id: string, themeId: string): (r: Result<Answer>)
      ensures Volatile? ==> (r.Ok? <==> themeId in mem.answers && id in mem.answers[themeId])
      ensures Volatile? && r.Ok? ==> r.value == mem.answers[themeId][id]
      ensures Durable? ==> (r.Ok? <==> id in file.answers && file.answers[id].themeId == themeId)
      ensures Durable? && r.Ok? ==> r.value == file.answers[id]
      ensures r.Err? ==> r.error == NotFound
      ensures Valid() && r.Ok? ==> r.value.id == id && r.value.themeId == themeId
    {
      if Volatile? then mem.GetAnswer(id, themeId) else file.GetAnswer(id, themeId)
    }

    /** What ListAnswers(themeId) lists: exactly what GetAnswer finds under themeId. */
    function Answers(themeId: string): (m: map<string, Answer>)
      ensures forall k :: k in m <==> GetAnswer(k, themeId).Ok?
      ensures forall k :: k in m ==> GetAnswer(k, themeId) == Ok(m[k])
    {
      if Volatile? then mem.Bucket(themeId) else file.OwnedBy(themeId)
    }

    /** Every answer GetAnswer finds in s, it finds unchanged in this state, and nothing else. */
    ghost predicate SameAnswers(s: Store) {
      forall i, t :: GetAnswer(i, t) == s.GetAnswer(i, t)
    }

    /**
     * What the handlers keep true of the store: titles and contents are
     * non-empty and likes are never negative.
     */
    ghost predicate WellFormed() {
      && (forall k :: k in Themes() ==> Themes()[k].title != "")
      && (forall i, t :: GetAnswer(i, t).Ok? ==> GetAnswer(i, t).value.content != "" && GetAnswer(i, t).value.likes >= 0)
    }

    /** The theme CreateTheme(t) stores: t itself in memory, numbered and stamped on file. */
    function StoredTheme(t: Theme, now: Time): (r: Theme)
      ensures r.title == t.title && r.description == t.description && r.createdBy == t.createdBy
      ensures Volatile? ==> r == t
      ensures Durable? ==> r.id == JsonStore.ThemeKey(file.nextThemeId)
      ensures Durable? ==> r.active && r.createdAt == now && r.updatedAt == now
      ensures Durable? && Valid() ==> r.id !in Themes()
    {
      if Volatile? then t else file.StampTheme(t, now)
    }

    function CreateTheme(t: Theme, now: Time, saveOk: bool): (r: Step<Store>)
      ensures r.outcome == Saved(saveOk)
      ensures r.next.Themes() == Themes()[StoredTheme(t, now).id := StoredTheme(t, now)]
      ensures r.next.SameAnswers(this)
      ensures r.next.Volatile? == Volatile?
      ensures Valid() ==> r.next.Valid()
    {
      if Volatile? then Step(Done, Volatile(mem.CreateTheme(t)))
      else var step := file.CreateTheme(t, now, saveOk); Step(step.outcome, Durable(step.next))
    }

    /** The theme UpdateTheme(t) stores: t, with updatedAt restamped on file. */
    function UpdatedTheme(t: Theme, now: Time): (r: Theme)
      ensures r.(updatedAt := t.updatedAt) == t
      ensures Volatile? ==> r == t
      ensures Durable? ==> r.updatedAt == now
    {
      if Volatile? then t else t.(updatedAt := now)
    }

    function UpdateTheme(t: Theme, now: Time, saveOk: bool): (r: Step<Store>)
      ensures t.id !in Themes() ==> r == Step(Failed(NotFound), this)
      ensures t.id in Themes() ==> r.outcome == Saved(saveOk)
      ensures t.id in Themes() ==> r.next.Themes() == Themes()[t.id := UpdatedTheme(t, now)]
      ensures r.next.SameAnswers(this)
      ensures r.next.Volatile? == Volatile?
      ensures Valid() ==> r.next.Valid()
    {
      if Volatile? then
        var step := mem.UpdateTheme(t); Step(step.outcome, Volatile(step.next))
      else
        var step := file.UpdateTheme(t, now, saveOk); Step(step.outcome, Durable(step.next))
    }

    /** DeleteTheme: the in-memory store orphans the theme's answers, the file store deletes them. */
    function DeleteTheme(id: string, saveOk: bool): (r: Step<Store>)
      ensures id !in Themes() ==> r == Step(Failed(NotFound), this)
      ensures id in Themes() ==> r.outcome == Saved(saveOk) && r.next.Themes() == Themes() - {id}
      ensures forall i, t :: r.next.GetAnswer(i, t).Ok? ==> r.next.GetAnswer(i, t) == GetAnswer(i, t)
      ensures Volatile? ==> r.next.SameAnswers(this)
      ensures Durable? ==> forall i, t :: t != id ==> r.next.GetAnswer(i, t) == GetAnswer(i, t)
      ensures Durable? && id in Themes() ==> forall i :: r.next.GetAnswer(i, id).Err?
      ensures r.next.Volatile? == Volatile?
      ensures Valid() ==> r.next.Valid()
    {
      if Volatile? then
        var step := mem.DeleteTheme(id); Step(step.outcome, Volatile(step.next))
      else
        var step := file.DeleteTheme(id, saveOk); Step(step.outcome, Durable(step.next))
    }

    /** The answer CreateAnswer(a) stores: a itself in memory, numbered and stamped on file. */
    function StoredAnswer(a: Answer, now: Time): (r: Answer)
      ensures r.themeId == a.themeId && r.content == a.content && r.createdBy == a.createdBy && r.likes == a.likes
      ensures Volatile? ==> r == a
      ensures Durable? ==> r.id == JsonStore.AnswerKey(file.nextAnswerId) && r.createdAt == now && r.updatedAt == now
      ensures Durable? && Valid() ==> forall t :: GetAnswer(r.id, t).Err?
    {
      if Volatile? then a else file.StampAnswer(a, now)
    }

    /** CreateAnswer: only the file store checks that the theme exists. */
    function CreateAnswer(a: Answer, now: Time, saveOk: bool): (r: Step<Store>)
      ensures Durable? && a.themeId !in Themes() ==> r == Step(Failed(NotFound), this)
      ensures Volatile? || a.themeId in Themes() ==>
        && r.outcome == Saved(saveOk)
        && r.next.GetAnswer(StoredAnswer(a, now).id, a.themeId) == Ok(StoredAnswer(a, now))
      ensures Volatile? || Valid() ==>
        forall i, t :: i != StoredAnswer(a, now).id || t != a.themeId ==> r.next.GetAnswer(i, t) == GetAnswer(i, t)
      ensures r.next.Themes() == Themes()
      ensures r.next.Volatile? == Volatile?
      ensures Valid() ==> r.next.Valid()
    {
      if Volatile? then Step(Done, Volatile(mem.CreateAnswer(a)))
      else var step := file.CreateAnswer(a, now, saveOk); Step(step.outcome, Durable(step.next))
    }

    /** The answer UpdateAnswer(a) stores: a, with updatedAt restamped on file. */
    function UpdatedAnswer(a: Answer, now: Time): (r: Answer)
      ensures r.(updatedAt := a.updatedAt) == a
      ensures Volatile? ==> r == a
      ensures Durable? ==> r.updatedAt == now
    {
      if Volatile? then a else a.(updatedAt := now)
    }

    function UpdateAnswer(a: Answer, now: Time, saveOk: bool): (r: Step<Store>)
      ensures GetAnswer(a.id, a.themeId).Err? ==> r == Step(Failed(NotFound), this)
      ensures GetAnswer(a.id, a.themeId).Ok? ==>
        && r.outcome == Saved(saveOk)
        && r.next.GetAnswer(a.id, a.themeId) == Ok(UpdatedAnswer(a, now))
        && (forall i, t :: i != a.id || t != a.themeId ==> r.next.GetAnswer(i, t) == GetAnswer(i, t))
      ensures r.next.Themes() == Themes()
      ensures r.next.Volatile? == Volatile?
      ensures Valid() ==> r.next.Valid()
    {
      if Volatile? then
        var step := mem.UpdateAnswer(a); Step(step.outcome, Volatile(step.next))
      else
        var step := file.UpdateAnswer(a, now, saveOk); Step(step.outcome, Durable(step.next))
    }

    function DeleteAnswer(id: string, themeId: string, saveOk: bool): (r: Step<Store>)
      ensures GetAnswer(id, themeId).Err? ==> r == Step(Failed(NotFound), this)
      ensures GetAnswer(id, themeId).Ok? ==>
        && r.outcome == Saved(saveOk)
        && r.next.GetAnswer(id, themeId) == Err(NotFound)
        && (forall i, t :: i != id || t != themeId ==> r.next.GetAnswer(i, t) == GetAnswer(i, t))
      ensures r.next.Themes() == Themes()
      ensures r.next.Volatile? == Volatile?
      ensures Valid() ==> r.next.Valid()
    {
      if Volatile? then
        var step := mem.DeleteAnswer(id, themeId); Step(step.outcome, Volatile(step.next))
      else
        var step := file.DeleteAnswer(id, themeId, saveOk); Step(step.outcome, Durable(step.next))
    }
  }

  /** The DataStore object a Handler holds: one of the two implementations. */
  datatype Backend = InMemory(memStore: MemoryStore.InMemoryStore) | Json(jsonStore: JsonStore.JSONStore)
  {
    function Repr(): set<object> {
      if InMemory? then {memStore} else {jsonStore}
    }

    ghost function State(): Store
      reads Repr()
    {
      if InMemory? then Volatile(memStore.State()) else Durable(jsonStore.State())
    }
  }

  // ---------- decisions the handlers make on record values ----------

  /** The status an error from a lookup or a delete is answered with. */
  function StatusOf(e: StoreError): (status: int)
    ensures status == StatusNotFound <==> e == NotFound
    ensures status != StatusNotFound ==> status == StatusInternalServerError
  {
    if e == NotFound then StatusNotFound else StatusInternalServerError
  }

  /** A create-theme body the handler accepts: it decoded and has a title. */
  predicate AcceptedTheme(req: Request<Theme>): (ok: bool)
    ensures ok ==> req.Payload? && |req.value.title| >= 1
    ensures !ok ==> req.Malformed? || |req.value.title| == 0
  {
    req.Payload? && req.value.title != ""
  }

  /** A submit-answer body the handler accepts: it decoded and has content. */
  predicate AcceptedAnswer(req: Request<Answer>): (ok: bool)
    ensures ok ==> req.Payload? && |req.value.content| >= 1
    ensures !ok ==> req.Malformed? || |req.value.content| == 0
  {
    req.Payload? && req.value.content != ""
  }

  /**
   * The theme CreateTheme hands to the store: the body's texts and author,
   * a generated id, both times the clock, and active whatever the body said.
   */
  function NewTheme(p: Theme, env: Env): (t: Theme)
    ensures t.title == p.title && t.description == p.description && t.createdBy == p.createdBy
    ensures t.createdAt == env.now && t.updatedAt == env.now && t.active
    ensures env.entropy.Random? ==> |t.id| == 16 && var b: seq<IdGen.byte> := env.entropy.bytes; IdGen.HexDecode(t.id) == Some(b)
    ensures env.entropy.Unavailable? ==> Decimal.Parse(t.id) == Some(env.now)
  {
    p.(id := IdGen.GenerateID(env.entropy, env.now), createdAt := env.now, updatedAt := env.now, active := true)
  }

  /**
   * The answer SubmitAnswer hands to the store: the body's content and
   * author, a generated id, the path's theme, both times the clock, and no
   * likes whatever the body said.
   */
  function NewAnswer(p: Answer, themeId: string, env: Env): (a: Answer)
    ensures a.content == p.content && a.createdBy == p.createdBy
    ensures a.themeId == themeId && a.likes == 0
    ensures a.createdAt == env.now && a.updatedAt == env.now
    ensures env.entropy.Random? ==> |a.id| == 16 && var b: seq<IdGen.byte> := env.entropy.bytes; IdGen.HexDecode(a.id) == Some(b)
    ensures env.entropy.Unavailable? ==> Decimal.Parse(a.id) == Some(env.now)
  {
    p.(id := IdGen.GenerateID(env.entropy, env.now), themeId := themeId,
       createdAt := env.now, updatedAt := env.now, likes := 0)
  }

  /**
   * UpdateTheme's merge: an empty title or description in the body keeps
   * the stored one; active is always taken from the body, so a body that
   * leaves it out deactivates the theme.
   */
  function MergeTheme(cur: Theme, p: Theme, now: Time): (r: Theme)
    ensures r.id == cur.id && r.createdAt == cur.createdAt && r.createdBy == cur.createdBy
    ensures p.title == "" ==> r.title == cur.title
    ensures p.title != "" ==> r.title == p.title
    ensures p.description == "" ==> r.description == cur.description
    ensures p.description != "" ==> r.description == p.description
    ensures cur.title != "" ==> r.title != ""
    ensures r.active == p.active && r.updatedAt == now
  {
    var merged := if p.title != "" then cur.(title := p.title) else cur;
    var merged := if p.description != "" then merged.(description := p.description) else merged;
    merged.(active := p.active, updatedAt := now)
  }

  /**
   * UpdateAnswer's merge: an empty content keeps the stored one, and likes
   * change only to a positive value.
   */
  function MergeAnswer(cur: Answer, p: Answer, now: Time): (r: Answer)
    ensures r.id == cur.id && r.themeId == cur.themeId
    ensures r.createdAt == cur.createdAt && r.createdBy == cur.createdBy
    ensures p.content == "" ==> r.content == cur.content
    ensures p.content != "" ==> r.content == p.content
    ensures p.likes > 0 ==> r.likes == p.likes
    ensures p.likes <= 0 ==> r.likes == cur.likes
    ensures cur.content != "" ==> r.content != ""
    ensures cur.likes >= 0 ==> r.likes >= 0
    ensures r.updatedAt == now
  {
    var merged := if p.content != "" then cur.(content := p.content) else cur;
    var merged := if p.likes > 0 then merged.(likes := p.likes) else merged;
    merged.(updatedAt := now)
  }

  // ---------- the handlers as functions of the store state ----------

  /** GET /themes/{id}. */
  function HandleGetTheme(s: Store, id: string): (r: Response<Theme>)
    ensures r.status == StatusOK <==> id in s.Themes()
    ensures r.status == StatusOK ==> r.body == Some(s.Themes()[id])
    ensures r.status != StatusOK ==> r == Reject(StatusNotFound)
    ensures s.Valid() && r.status == StatusOK ==> r.body.value.id == id
  {
    match s.GetTheme(id)
    case Err(e) => Reject(StatusOf(e))
    case Ok(theme) => Response(StatusOK, Some(theme))
  }

  /** POST /themes. */
  function HandleCreateTheme(s: Store, req: Request<Theme>, env: Env): (r: (Response<Theme>, Store))
    ensures !AcceptedTheme(req) ==> r == (Reject(StatusBadRequest), s)
    ensures AcceptedTheme(req) ==>
      var t := s.StoredTheme(NewTheme(req.value, env), env.now);
      && t.title == req.value.title && t.description == req.value.description && t.createdBy == req.value.createdBy
      && t.active && t.createdAt == env.now && t.updatedAt == env.now
      && r.1.Themes() == s.Themes()[t.id := t]
      && r.1.SameAnswers(s)
      && (r.0.status == StatusCreated ==> r.0.body == Some(t))
      && (r.0.status == StatusCreated || (s.Durable? && !env.saveOk && r.0 == Reject(StatusInternalServerError)))
      && (s.Volatile? || env.saveOk ==> r.0.status == StatusCreated)
    ensures AcceptedTheme(req) && s.Volatile? ==> r.0.body == Some(NewTheme(req.value, env))
    ensures AcceptedTheme(req) && s.Durable? && s.Valid() ==> |r.1.Themes()| == |s.Themes()| + 1
    ensures r.1.Volatile? == s.Volatile?
    ensures s.Valid() ==> r.1.Valid()
    ensures s.Valid() && s.WellFormed() ==> r.1.WellFormed()
  {
    if !AcceptedTheme(req) then (Reject(StatusBadRequest), s)
    else
      var theme := NewTheme(req.value, env);
      var step := s.CreateTheme(theme, env.now, env.saveOk);
      if step.outcome.Failed? then (Reject(StatusInternalServerError), step.next)
      else (Response(StatusCreated, Some(s.StoredTheme(theme, env.now))), step.next)
  }

  /** PUT /themes/{id}: the body is decoded before the theme is looked up. */
  function HandleUpdateTheme(s: Store, id: string, req: Request<Theme>, env: Env): (r: (Response<Theme>, Store))
    ensures req.Malformed? ==> r == (Reject(StatusBadRequest), s)
    ensures req.Payload? && id !in s.Themes() ==> r == (Reject(StatusNotFound), s)
    ensures req.Payload? && id in s.Themes() && s.Valid() ==>
      var m := s.UpdatedTheme(MergeTheme(s.Themes()[id], req.value, env.now), env.now);
      && m.id == id
      && r.1.Themes() == s.Themes()[id := m]
      && r.1.SameAnswers(s)
      && (r.0.status == StatusOK ==> r.0.body == Some(m))
      && (r.0.status == StatusOK || (s.Durable? && !env.saveOk && r.0 == Reject(StatusInternalServerError)))
      && (s.Volatile? || env.saveOk ==> r.0.status == StatusOK)
    ensures r.1.Volatile? == s.Volatile?
    ensures s.Valid() ==> r.1.Valid()
    ensures s.Valid() && s.WellFormed() ==> r.1.WellFormed()
  {
    if req.Malformed? then (Reject(StatusBadRequest), s)
    else match s.GetTheme(id)
      case Err(e) => (Reject(StatusOf(e)), s)
      case Ok(cur) =>
        var merged := MergeTheme(cur, req.value, env.now);
        var step := s.UpdateTheme(merged, env.now, env.saveOk);
        if step.outcome.Failed? then (Reject(StatusInternalServerError), step.next)
        else (Response(StatusOK, Some(s.UpdatedTheme(merged, env.now))), step.next)
  }

  /** DELETE /themes/{id}. */
  function HandleDeleteTheme(s: Store, id: string, env: Env): (r: (Response<Theme>, Store))
    ensures id !in s.Themes() ==> r == (Reject(StatusNotFound), s)
    ensures id in s.Themes() ==> r.1.Themes() == s.Themes() - {id}
    ensures id in s.Themes() ==>
      r.0 == Reject(StatusNoContent) || (s.Durable? && !env.saveOk && r.0 == Reject(StatusInternalServerError))
    ensures id in s.Themes() && (s.Volatile? || env.saveOk) ==> r.0 == Reject(StatusNoContent)
    ensures s.Volatile? ==> r.1.SameAnswers(s)
    ensures s.Durable? && id in s.Themes() ==> forall i :: r.1.GetAnswer(i, id).Err?
    ensures s.Durable? ==> forall i, t :: t != id ==> r.1.GetAnswer(i, t) == s.GetAnswer(i, t)
    ensures r.1.Volatile? == s.Volatile?
    ensures s.Valid() ==> r.1.Valid()
    ensures s.WellFormed() ==> r.1.WellFormed()
  {
    var step := s.DeleteTheme(id, env.saveOk);
    match step.outcome
    case Failed(e) => (Reject(StatusOf(e)), step.next)
    case Done => (Reject(StatusNoContent), step.next)
  }

  /** GET /themes/{themeID}/answers/{id}. */
  function HandleGetAnswer(s: Store, themeId: string, id: string): (r: Response<Answer>)
    ensures r.status == StatusOK <==> s.GetAnswer(id, themeId).Ok?
    ensures r.status == StatusOK ==> r.body == Some(s.GetAnswer(id, themeId).value)
    ensures r.status != StatusOK ==> r == Reject(StatusNotFound)
    ensures s.Valid() && r.status == StatusOK ==> r.body.value.id == id && r.body.value.themeId == themeId
  {
    match s.GetAnswer(id, themeId)
    case Err(e) => Reject(StatusOf(e))
    case Ok(answer) => Response(StatusOK, Some(answer))
  }

  /**
   * POST /themes/{themeID}/answers: the theme must exist and be active, both
   * checked before the body is decoded.
   */
  function HandleSubmitAnswer(s: Store, themeId: string, req: Request<Answer>, env: Env): (r: (Response<Answer>, Store))
    ensures themeId !in s.Themes() ==> r == (Reject(StatusNotFound), s)
    ensures themeId in s.Themes() && !s.Themes()[themeId].active ==> r == (Reject(StatusBadRequest), s)
    ensures themeId in s.Themes() && !AcceptedAnswer(req) ==> r == (Reject(StatusBadRequest), s)
    ensures themeId in s.Themes() && s.Themes()[themeId].active && AcceptedAnswer(req) ==>
      var a := s.StoredAnswer(NewAnswer(req.value, themeId, env), env.now);
      && a.themeId == themeId && a.likes == 0
      && a.content == req.value.content && a.createdBy == req.value.createdBy
      && r.1.GetAnswer(a.id, themeId) == Ok(a)
      && (s.Volatile? || s.Valid() ==>
            forall i, t :: i != a.id || t != themeId ==> r.1.GetAnswer(i, t) == s.GetAnswer(i, t))
      && r.1.Themes() == s.Themes()
      && (r.0.status == StatusCreated ==> r.0.body == Some(a))
      && (r.0.status == StatusCreated || (s.Durable? && !env.saveOk && r.0 == Reject(StatusInternalServerError)))
      && (s.Volatile? || env.saveOk ==> r.0.status == StatusCreated)
    ensures r.1.Volatile? == s.Volatile?
    ensures s.Valid() ==> r.1.Valid()
    ensures s.Valid() && s.WellFormed() ==> r.1.WellFormed()
  {
    match s.GetTheme(themeId)
    case Err(e) => (Reject(StatusOf(e)), s)
    case Ok(theme) =>
      if !theme.active then (Reject(StatusBadRequest), s)
      else if !AcceptedAnswer(req) then (Reject(StatusBadRequest), s)
      else
        var answer := NewAnswer(req.value, themeId, env);
        var step := s.CreateAnswer(answer, env.now, env.saveOk);
        if step.outcome.Failed? then (Reject(StatusInternalServerError), step.next)
        else (Response(StatusCreated, Some(s.StoredAnswer(answer, env.now))), step.next)
  }

  /** PUT /themes/{themeID}/answers/{id}: the body is decoded before the answer is looked up. */
  function HandleUpdateAnswer(s: Store, themeId: string, id: string, req: Request<Answer>, env: Env)
    : (r: (Response<Answer>, Store))
    ensures req.Malformed? ==> r == (Reject(StatusBadRequest), s)
    ensures req.Payload? && s.GetAnswer(id, themeId).Err? ==> r == (Reject(StatusNotFound), s)
    ensures req.Payload? && s.GetAnswer(id, themeId).Ok? && s.Valid() ==>
      var m := s.UpdatedAnswer(MergeAnswer(s.GetAnswer(id, themeId).value, req.value, env.now), env.now);
      && m.id == id && m.themeId == themeId
      && r.1.GetAnswer(id, themeId) == Ok(m)
      && (forall i, t :: i != id || t != themeId ==> r.1.GetAnswer(i, t) == s.GetAnswer(i, t))
      && r.1.Themes() == s.Themes()
      && (r.0.status == StatusOK ==> r.0.body == Some(m))
      && (r.0.status == StatusOK || (s.Durable? && !env.saveOk && r.0 == Reject(StatusInternalServerError)))
      && (s.Volatile? || env.saveOk ==> r.0.status == StatusOK)
    ensures r.1.Volatile? == s.Volatile?
    ensures s.Valid() ==> r.1.Valid()
    ensures s.Valid() && s.WellFormed() ==> r.1.WellFormed()
  {
    if req.Malformed? then (Reject(StatusBadRequest), s)
    else match s.GetAnswer(id, themeId)
      case Err(e) => (Reject(StatusOf(e)), s)
      case Ok(cur) =>
        var merged := MergeAnswer(cur, req.value, env.now);
        var step := s.UpdateAnswer(merged, env.now, env.saveOk);
        if step.outcome.Failed? then (Reject(StatusInternalServerError), step.next)
        else (Response(StatusOK, Some(s.UpdatedAnswer(merged, env.now))), step.next)
  }

  /** DELETE /themes/{themeID}/answers/{id}. */
  function HandleDeleteAnswer(s: Store, themeId: string, id: string, env: Env): (r: (Response<Answer>, Store))
    ensures s.GetAnswer(id, themeId).Err? ==> r == (Reject(StatusNotFound), s)
    ensures s.GetAnswer(id, themeId).Ok? ==>
      && r.1.GetAnswer(id, themeId) == Err(NotFound)
      && (forall i, t :: i != id || t != themeId ==> r.1.GetAnswer(i, t) == s.GetAnswer(i, t))
      && r.1.Themes() == s.Themes()
      && (r.0 == Reject(StatusNoContent) || (s.Durable? && !env.saveOk && r.0 == Reject(StatusInternalServerError)))
      && (s.Volatile? || env.saveOk ==> r.0 == Reject(StatusNoContent))
    ensures r.1.Volatile? == s.Volatile?
    ensures s.Valid() ==> r.1.Valid()
    ensures s.WellFormed() ==> r.1.WellFormed()
  {
    var step := s.DeleteAnswer(id, themeId, env.saveOk);
    match step.outcome
    case Failed(e) => (Reject(StatusOf(e)), step.next)
    case Done => (Reject(StatusNoContent), step.next)
  }

  // ---------- properties relating several handlers ----------

  /**
   * A theme created with 201 is then served by GET with exactly the
   * record the creation echoed.
   */
  lemma CreatedThemeIsServed(s: Store, req: Request<Theme>, env: Env)
    requires HandleCreateTheme(s, req, env).0.status == StatusCreated
    ensures var (created, s') := HandleCreateTheme(s, req, env);
      created.body.Some? && HandleGetTheme(s', created.body.value.id) == Response(StatusOK, created.body)
  {
  }

  /**
   * After a theme is deleted, the theme is gone, so Handler.ListAnswers
   * answers 404 for it; the in-memory store still serves its answers by id,
   * while the file store refuses them with 404.
   */
  lemma DeletedThemeAnswers(s: Store, themeId: string, id: string, env: Env)
    requires HandleGetAnswer(s, themeId, id).status == StatusOK
    requires HandleDeleteTheme(s, themeId, env).0 == Reject(StatusNoContent)
    ensures var s' := HandleDeleteTheme(s, themeId, env).1;
      && themeId !in s'.Themes()
      && (s.Volatile? ==> HandleGetAnswer(s', themeId, id) == HandleGetAnswer(s, themeId, id))
      && (s.Durable? ==> HandleGetAnswer(s', themeId, id) == Reject(StatusNotFound))
  {
  }

  /** A request that can change the store (GET requests never do). */
  datatype Call =
    | CreateThemeCall(themeBody: Request<Theme>, env: Env)
    | UpdateThemeCall(id: string, themeBody: Request<Theme>, env: Env)
    | DeleteThemeCall(id: string, env: Env)
    | SubmitAnswerCall(themeId: string, answerBody: Request<Answer>, env: Env)
    | UpdateAnswerCall(themeId: string, id: string, answerBody: Request<Answer>, env: Env)
    | DeleteAnswerCall(themeId: string, id: string, env: Env)

  /** The store after one request, whatever the response. */
  function Serve(s: Store, c: Call): (r: Store)
    ensures r.Volatile? == s.Volatile?
    ensures s.Valid() ==> r.Valid()
    ensures s.Valid() && s.WellFormed() ==> r.WellFormed()
  {
    match c
    case CreateThemeCall(body, env) => HandleCreateTheme(s, body, env).1
    case UpdateThemeCall(id, body, env) => HandleUpdateTheme(s, id, body, env).1
    case DeleteThemeCall(id, env) => HandleDeleteTheme(s, id, env).1
    case SubmitAnswerCall(themeId, body, env) => HandleSubmitAnswer(s, themeId, body, env).1
    case UpdateAnswerCall(themeId, id, body, env) => HandleUpdateAnswer(s, themeId, id, body, env).1
    case DeleteAnswerCall(themeId, id, env) => HandleDeleteAnswer(s, themeId, id, env).1
  }

  /** The store after a sequence of requests, served one after another. */
  function ServeAll(s: Store, calls: seq<Call>): Store
    decreases |calls|
  {
    if calls == [] then s else ServeAll(Serve(s, calls[0]), calls[1..])
  }

  /** The two stores the server can start with: an empty InMemoryStore and a JSONStore without a file. */
  lemma StartStatesSound()
    ensures Volatile(MemoryStore.MemState(map[], map[])).Valid()
    ensures Volatile(MemoryStore.MemState(map[], map[])).WellFormed()
    ensures Durable(JsonStore.Fresh).Valid()
    ensures Durable(JsonStore.Fresh).WellFormed()
  {
  }

  /**
   * Whatever requests a sound store serves, in whatever order, it stays
   * sound: each store's invariant holds, titles and contents stay
   * non-empty and likes stay non-negative.
   */
  lemma {:induction false} ServeAllKeepsSound(s: Store, calls: seq<Call>)
    requires s.Valid() && s.WellFormed()
    ensures ServeAll(s, calls).Valid() && ServeAll(s, calls).WellFormed()
    ensures ServeAll(s, calls).Volatile? == s.Volatile?
    decreases |calls|
  {
    if calls != [] {
      ServeAllKeepsSound(Serve(s, calls[0]), calls[1..]);
    }
  }

  // ---------- the handlers as the Go code runs them ----------

  /** Handler: the request handlers over the store they were built with. */
  class Handler {
    const store: Backend

    /** NewHandler. */
    constructor (store: Backend)
      ensures this.store == store
    {
      this.store := store;
    }

    // The DataStore calls, dispatched to the implementation behind the interface.

    method StoreGetTheme(id: string) returns (r: Result<Theme>)
      ensures r == store.State().GetTheme(id)
    {
      match store
      case InMemory(m) => r := m.GetTheme(id);
      case Json(j) => r := j.GetTheme(id);
    }

    method StoreListThemes() returns (r: seq<Theme>, ghost order: seq<string>)
      ensures Listing.Enumerates(r, order, store.State().Themes())
      ensures Listing.Lists(r, store.State().Themes())
    {
      match store
      case InMemory(m) => r, order := m.ListThemes();
      case Json(j) => r, order := j.ListThemes();
    }

    method StoreCreateTheme(t: Theme, now: Time, saveOk: bool) returns (err: Outcome, stored: Theme)
      modifies store.Repr()
      ensures stored == old(store.State()).StoredTheme(t, now)
      ensures Step(err, store.State()) == old(store.State()).CreateTheme(t, now, saveOk)
    {
      match store
      case InMemory(m) =>
        m.CreateTheme(t);
        err, stored := Done, t;
      case Json(j) =>
        err, stored := j.CreateTheme(t, now, saveOk);
    }

    method StoreUpdateTheme(t: Theme, now: Time, saveOk: bool) returns (err: Outcome, stored: Theme)
      modifies store.Repr()
      ensures err == Failed(NotFound) ==> stored == t
      ensures err != Failed(NotFound) ==> stored == old(store.State()).UpdatedTheme(t, now)
      ensures Step(err, store.State()) == old(store.State()).UpdateTheme(t, now, saveOk)
    {
      match store
      case InMemory(m) =>
        err := m.UpdateTheme(t);
        stored := t;
      case Json(j) =>
        err, stored := j.UpdateTheme(t, now, saveOk);
    }

    method StoreDeleteTheme(id: string, saveOk: bool) returns (err: Outcome)
      modifies store.Repr()
      ensures Step(err, store.State()) == old(store.State()).DeleteTheme(id, saveOk)
    {
      match store
      case InMemory(m) => err := m.DeleteTheme(id);
      case Json(j) => err := j.DeleteTheme(id, saveOk);
    }

    method StoreGetAnswer(id: string, themeId: string) returns (r: Result<Answer>)
      ensures r == store.State().GetAnswer(id, themeId)
    {
      match store
      case InMemory(m) => r := m.GetAnswer(id, themeId);
      case Json(j) => r := j.GetAnswer(id, themeId);
    }

    method StoreListAnswers(themeId: string) returns (r: seq<Answer>, ghost order: seq<string>)
      ensures Listing.Enumerates(r, order, store.State().Answers(themeId))
      ensures Listing.Lists(r, store.State().Answers(themeId))
      ensures store.State() == old(store.State())
    {
      match store
      case InMemory(m) => r, order := m.ListAnswers(themeId);
      case Json(j) => r, order := j.ListAnswers(themeId);
    }

    method StoreCreateAnswer(a: Answer, now: Time, saveOk: bool) returns (err: Outcome, stored: Answer)
      modifies store.Repr()
      ensures err == Failed(NotFound) ==> stored == a
      ensures err != Failed(NotFound) ==> stored == old(store.State()).StoredAnswer(a, now)
      ensures Step(err, store.State()) == old(store.State()).CreateAnswer(a, now, saveOk)
    {
      match store
      case InMemory(m) =>
        m.CreateAnswer(a);
        err, stored := Done, a;
      case Json(j) =>
        err, stored := j.CreateAnswer(a, now, saveOk);
    }

    method StoreUpdateAnswer(a: Answer, now: Time, saveOk: bool) returns (err: Outcome, stored: Answer)
      modifies store.Repr()
      ensures err == Failed(NotFound) ==> stored == a
      ensures err != Failed(NotFound) ==> stored == old(store.State()).UpdatedAnswer(a, now)
      ensures Step(err, store.State()) == old(store.State()).UpdateAnswer(a, now, saveOk)
    {
      match store
      case InMemory(m) =>
        err := m.UpdateAnswer(a);
        stored := a;
      case Json(j) =>
        err, stored := j.UpdateAnswer(a, now, saveOk);
    }

    method StoreDeleteAnswer(id: string, themeId: string, saveOk: bool) returns (err: Outcome)
      modifies store.Repr()
      ensures Step(err, store.State()) == old(store.State()).DeleteAnswer(id, themeId, saveOk)
    {
      match store
      case InMemory(m) => err := m.DeleteAnswer(id, themeId);
      case Json(j) => err := j.DeleteAnswer(id, themeId, saveOk);
    }

    // The ten handlers.

    /** GET /themes: every theme once, in map order, always 200 (neither store fails a listing). */
    method ListThemes() returns (resp: Response<seq<Theme>>, ghost order: seq<string>)
      ensures resp.status == StatusOK && resp.body.Some?
      ensures Listing.Enumerates(resp.body.value, order, store.State().Themes())
      ensures Listing.Lists(resp.body.value, store.State().Themes())
    {
      var themes;
      themes, order := StoreListThemes();
      resp := Response(StatusOK, Some(themes));
    }

    method GetTheme(id: string) returns (resp: Response<Theme>)
      ensures resp == HandleGetTheme(store.State(), id)
    {
      var r := StoreGetTheme(id);
      match r
      case Err(e) => resp := Reject(StatusOf(e));
      case Ok(theme) => resp := Response(StatusOK, Some(theme));
    }

    method CreateTheme(req: Request<Theme>, env: Env) returns (resp: Response<Theme>)
      modifies store.Repr()
      ensures (resp, store.State()) == HandleCreateTheme(old(store.State()), req, env)
    {
      if req.Malformed? {
        return Reject(StatusBadRequest);
      }
      var theme := req.value;
      if theme.title == "" {
        return Reject(StatusBadRequest);
      }
      var now := env.now;
      theme := theme.(id := IdGen.GenerateID(env.entropy, now));
      theme := theme.(createdAt := now, updatedAt := now, active := true);
      var err, stored := StoreCreateTheme(theme, now, env.saveOk);
      if err.Failed? {
        return Reject(StatusInternalServerError);
      }
      resp := Response(StatusCreated, Some(stored));
    }

    method UpdateTheme(id: string, req: Request<Theme>, env: Env) returns (resp: Response<Theme>)
      modifies store.Repr()
      ensures (resp, store.State()) == HandleUpdateTheme(old(store.State()), id, req, env)
    {
      if req.Malformed? {
        return Reject(StatusBadRequest);
      }
      var updated := req.value;
      var r := StoreGetTheme(id);
      if r.Err? {
        return Reject(StatusOf(r.error));
      }
      var current := r.value;
      if updated.title != "" {
        current := current.(title := updated.title);
      }
      if updated.description != "" {
        current := current.(description := updated.description);
      }
      current := current.(active := updated.active);
      current := current.(updatedAt := env.now);
      var err, stored := StoreUpdateTheme(current, env.now, env.saveOk);
      if err.Failed? {
        return Reject(StatusInternalServerError);
      }
      resp := Response(StatusOK, Some(stored));
    }

    method DeleteTheme(id: string, env: Env) returns (resp: Response<Theme>)
      modifies store.Repr()
      ensures (resp, store.State()) == HandleDeleteTheme(old(store.State()), id, env)
    {
      var err := StoreDeleteTheme(id, env.saveOk);
      if err.Failed? {
        return Reject(StatusOf(err.error));
      }
      resp := Reject(StatusNoContent);
    }

    /**
     * GET /themes/{themeID}/answers: 404 when the theme is not stored, even
     * though the store itself would list nothing without an error.
     */
    method ListAnswers(themeId: string) returns (resp: Response<seq<Answer>>, ghost order: seq<string>)
      ensures themeId !in store.State().Themes() ==> resp == Reject(StatusNotFound)
      ensures themeId in store.State().Themes() ==>
        && resp.status == StatusOK && resp.body.Some?
        && Listing.Enumerates(resp.body.value, order, store.State().Answers(themeId))
        && Listing.Lists(resp.body.value, store.State().Answers(themeId))
    {
      var r := StoreGetTheme(themeId);
      if r.Err? {
        return Reject(StatusOf(r.error)), [];
      }
      var answers;
      answers, order := StoreListAnswers(themeId);
      resp := Response(StatusOK, Some(answers));
    }

    method GetAnswer(themeId: string, id: string) returns (resp: Response<Answer>)
      ensures resp == HandleGetAnswer(store.State(), themeId, id)
    {
      var r := StoreGetAnswer(id, themeId);
      match r
      case Err(e) => resp := Reject(StatusOf(e));
      case Ok(answer) => resp := Response(StatusOK, Some(answer));
    }

    method SubmitAnswer(themeId: string, req: Request<Answer>, env: Env) returns (resp: Response<Answer>)
      modifies store.Repr()
      ensures (resp, store.State()) == HandleSubmitAnswer(old(store.State()), themeId, req, env)
    {
      var r := StoreGetTheme(themeId);
      if r.Err? {
        return Reject(StatusOf(r.error));
      }
      if !r.value.active {
        return Reject(StatusBadRequest);
      }
      if req.Malformed? {
        return Reject(StatusBadRequest);
      }
      var answer := req.value;
      if answer.content == "" {
        return Reject(StatusBadRequest);
      }
      var now := env.now;
      answer := answer.(id := IdGen.GenerateID(env.entropy, now), themeId := themeId);
      answer := answer.(createdAt := now, updatedAt := now, likes := 0);
      var err, stored := StoreCreateAnswer(answer, now, env.saveOk);
      if err.Failed? {
        return Reject(StatusInternalServerError);
      }
      resp := Response(StatusCreated, Some(stored));
    }

    method UpdateAnswer(themeId: string, id: string, req: Request<Answer>, env: Env) returns (resp: Response<Answer>)
      modifies store.Repr()
      ensures (resp, store.State()) == HandleUpdateAnswer(old(store.State()), themeId, id, req, env)
    {
      if req.Malformed? {
        return Reject(StatusBadRequest);
      }
      var updated := req.value;
      var r := StoreGetAnswer(id, themeId);
      if r.Err? {
        return Reject(StatusOf(r.error));
      }
      var current := r.value;
      if updated.content != "" {
        current := current.(content := updated.content);
      }
      if updated.likes > 0 {
        current := current.(likes := updated.likes);
      }
      current := current.(updatedAt := env.now);
      var err, stored := StoreUpdateAnswer(current, env.now, env.saveOk);
      if err.Failed? {
        return Reject(StatusInternalServerError);
      }
      resp := Response(StatusOK, Some(stored));
    }

    method DeleteAnswer(themeId: string, id: string, env: Env) returns (resp: Response<Answer>)
      modifies store.Repr()
      ensures (resp, store.State()) == HandleDeleteAnswer(old(store.State()), themeId, id, env)
    {
      var err := StoreDeleteAnswer(id, themeId, env.saveOk);
      if err.Failed? {
        return Reject(StatusOf(err.error));
      }
      resp := Reject(StatusNoContent);
    }
  }
}
