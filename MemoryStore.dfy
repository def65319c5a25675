/**
 * InMemoryStore (internal/data/models.go:55-216), the store the server is
 * wired with: themes by id, and answers in a two-level map from theme id to
 * answer id.  It trusts its caller: ids and timestamps come in with the
 * record, CreateTheme overwrites, CreateAnswer does not look at the themes,
 * and DeleteTheme leaves the theme's answers where they are.
 *
 * MemState is the store's contents as a value, with one function per
 * operation; the class InMemoryStore updates its maps in place and each of
 * its methods is proved to have exactly the effect of that function.
 */
module MemoryStore {
  import opened Records
  import Listing

  datatype MemState = MemState(themes: map<string, Theme>, answers: map<string, map<string, Answer>>)
  {
    /** Every record sits under its own id, and every answer in its own theme's bucket. */
    ghost predicate Valid() {
      && (forall k :: k in themes ==> themes[k].id == k)
      && (forall t, a :: t in answers && a in answers[t] ==> answers[t][a].themeId == t && answers[t][a].id == a)
    }

    /** GetTheme: the stored theme, or NotFound. */
    function GetTheme(id: string): (r: Result<Theme>)
      ensures r.Ok? <==> id in themes
      ensures r.Ok? ==> r.value == themes[id]
      ensures r.Err? ==> r.error == NotFound
      ensures Valid() && r.Ok? ==> r.value.id == id
    {
      if id in themes then Ok(themes[id]) else Err(NotFound)
    }

    /** CreateTheme: stores t under t.id, replacing whatever was there. */
    function CreateTheme(t: Theme): (r: MemState)
      ensures r.GetTheme(t.id) == Ok(t)
      ensures forall k :: k != t.id ==> r.GetTheme(k) == GetTheme(k)
      ensures r.answers == answers
      ensures Valid() ==> r.Valid()
    {
      MemState(themes[t.id := t], answers)
    }

    /** UpdateTheme: NotFound when t.id is absent, otherwise the same replacement as CreateTheme. */
    function UpdateTheme(t: Theme): (r: Step<MemState>)
      ensures t.id !in themes ==> r == Step(Failed(NotFound), this)
      ensures t.id in themes ==> r == Step(Done, CreateTheme(t))
      ensures Valid() ==> r.next.Valid()
    {
      if t.id !in themes then Step(Failed(NotFound), this)
      else Step(Done, MemState(themes[t.id := t], answers))
    }

    /** DeleteTheme: removes only that theme; its answers stay in their bucket. */
    function DeleteTheme(id: string): (r: Step<MemState>)
      ensures id !in themes ==> r == Step(Failed(NotFound), this)
      ensures id in themes ==> r.outcome == Done && r.next.GetTheme(id) == Err(NotFound)
      ensures forall k :: k != id ==> r.next.GetTheme(k) == GetTheme(k)
      ensures forall a, t :: r.next.GetAnswer(a, t) == GetAnswer(a, t)
      ensures Valid() ==> r.next.Valid()
    {
      if id !in themes then Step(Failed(NotFound), this)
      else Step(Done, MemState(themes - {id}, answers))
    }

    /** GetAnswer: NotFound when the theme's bucket or the answer in it is missing. */
    function GetAnswer(id: string, themeId: string): (r: Result<Answer>)
      ensures r.Ok? <==> themeId in answers && id in answers[themeId]
      ensures r.Ok? ==> r.value == answers[themeId][id]
      ensures r.Err? ==> r.error == NotFound
      ensures Valid() && r.Ok? ==> r.value.id == id && r.value.themeId == themeId
    {
      if themeId !in answers then Err(NotFound)
      else if id !in answers[themeId] then Err(NotFound)
      else Ok(answers[themeId][id])
    }

    /**
     * What ListAnswers lists: the theme's bucket, empty (not an error) when
     * there is none, which is exactly the answers GetAnswer finds under that theme.
     */
    function Bucket(themeId: string): (b: map<string, Answer>)
      ensures themeId !in answers ==> b == map[]
      ensures forall k :: k in b <==> GetAnswer(k, themeId).Ok?
      ensures forall k :: k in b ==> GetAnswer(k, themeId) == Ok(b[k])
    {
      if themeId in answers then answers[themeId] else map[]
    }

    /** CreateAnswer: files a under a.themeId, making the bucket if needed; themes are not consulted. */
    function CreateAnswer(a: Answer): (r: MemState)
      ensures r.GetAnswer(a.id, a.themeId) == Ok(a)
      ensures forall i, t :: i != a.id || t != a.themeId ==> r.GetAnswer(i, t) == GetAnswer(i, t)
      ensures r.themes == themes
      ensures Valid() ==> r.Valid()
    {
      var bucket := if a.themeId in answers then answers[a.themeId] else map[];
      MemState(themes, answers[a.themeId := bucket[a.id := a]])
    }

    /** UpdateAnswer: NotFound unless a is already filed under (a.themeId, a.id); then replaces it. */
    function UpdateAnswer(a: Answer): (r: Step<MemState>)
      ensures GetAnswer(a.id, a.themeId).Err? ==> r == Step(Failed(NotFound), this)
      ensures GetAnswer(a.id, a.themeId).Ok? ==> r == Step(Done, CreateAnswer(a))
      ensures Valid() ==> r.next.Valid()
    {
      if a.themeId !in answers || a.id !in answers[a.themeId] then Step(Failed(NotFound), this)
      else Step(Done, MemState(themes, answers[a.themeId := answers[a.themeId][a.id := a]]))
    }

    /** DeleteAnswer: NotFound unless filed; then removes it and keeps the (possibly empty) bucket. */
    function DeleteAnswer(id: string, themeId: string): (r: Step<MemState>)
      ensures GetAnswer(id, themeId).Err? ==> r == Step(Failed(NotFound), this)
      ensures GetAnswer(id, themeId).Ok? ==> r.outcome == Done && r.next.GetAnswer(id, themeId) == Err(NotFound)
      ensures GetAnswer(id, themeId).Ok? ==> themeId in r.next.answers
      ensures forall i, t :: i != id || t != themeId ==> r.next.GetAnswer(i, t) == GetAnswer(i, t)
      ensures r.next.themes == themes
      ensures Valid() ==> r.next.Valid()
    {
      if themeId !in answers || id !in answers[themeId] then Step(Failed(NotFound), this)
      else Step(Done, MemState(themes, answers[themeId := answers[themeId] - {id}]))
    }
  }

  /** The store the server runs with; every call is atomic (its locks are not modelled). */
  class InMemoryStore {
    var themes: map<string, Theme>
    var answers: map<string, map<string, Answer>>

    ghost function State(): MemState
      reads this
    {
      MemState(themes, answers)
    }

    /** NewInMemoryStore: both maps empty. */
    constructor ()
      ensures State() == MemState(map[], map[])
      ensures State().Valid()
    {
      themes := map[];
      answers := map[];
    }

    method GetTheme(id: string) returns (r: Result<Theme>)
      ensures r == State().GetTheme(id)
    {
      if id !in themes {
        return Err(NotFound);
      }
      r := Ok(themes[id]);
    }

    /** ListThemes: every stored theme once, in map order; never fails. */
    method ListThemes() returns (r: seq<Theme>, ghost order: seq<string>)
      ensures Listing.Enumerates(r, order, themes)
      ensures Listing.Lists(r, themes)
    {
      r, order := Listing.Values(themes);
    }

    method CreateTheme(theme: Theme)
      modifies this
      ensures State() == old(State()).CreateTheme(theme)
    {
      themes := themes[theme.id := theme];
    }

    method UpdateTheme(theme: Theme) returns (err: Outcome)
      modifies this
      ensures Step(err, State()) == old(State()).UpdateTheme(theme)
    {
      if theme.id !in themes {
        return Failed(NotFound);
      }
      themes := themes[theme.id := theme];
      err := Done;
    }

    method DeleteTheme(id: string) returns (err: Outcome)
      modifies this
      ensures Step(err, State()) == old(State()).DeleteTheme(id)
    {
      if id !in themes {
        return Failed(NotFound);
      }
      themes := themes - {id};
      err := Done;
    }

    method GetAnswer(id: string, themeId: string) returns (r: Result<Answer>)
      ensures r == State().GetAnswer(id, themeId)
    {
      if themeId !in answers {
        return Err(NotFound);
      }
      var themeAnswers := answers[themeId];
      if id !in themeAnswers {
        return Err(NotFound);
      }
      r := Ok(themeAnswers[id]);
    }

    /** ListAnswers: the bucket's answers in map order; an unknown theme gives the empty list. */
    method ListAnswers(themeId: string) returns (r: seq<Answer>, ghost order: seq<string>)
      ensures Listing.Enumerates(r, order, State().Bucket(themeId))
      ensures Listing.Lists(r, State().Bucket(themeId))
      ensures themeId !in answers ==> r == []
    {
      if themeId !in answers {
        return [], [];
      }
      r, order := Listing.Values(answers[themeId]);
    }

    method CreateAnswer(answer: Answer)
      modifies this
      ensures State() == old(State()).CreateAnswer(answer)
    {
      if answer.themeId !in answers {
        answers := answers[answer.themeId := map[]];
      }
      answers := answers[answer.themeId := answers[answer.themeId][answer.id := answer]];
    }

    method UpdateAnswer(answer: Answer) returns (err: Outcome)
      modifies this
      ensures Step(err, State()) == old(State()).UpdateAnswer(answer)
    {
      if answer.themeId !in answers {
        return Failed(NotFound);
      }
      var themeAnswers := answers[answer.themeId];
      if answer.id !in themeAnswers {
        return Failed(NotFound);
      }
      answers := answers[answer.themeId := themeAnswers[answer.id := answer]];
      err := Done;
    }

    method DeleteAnswer(id: string, themeId: string) returns (err: Outcome)
      modifies this
      ensures Step(err, State()) == old(State()).DeleteAnswer(id, themeId)
    {
      if themeId !in answers {
        return Failed(NotFound);
      }
      var themeAnswers := answers[themeId];
      if id !in themeAnswers {
        return Failed(NotFound);
      }
      answers := answers[themeId := themeAnswers - {id}];
      err := Done;
    }
  }
}
