/**
 * JSONStore (internal/data/models.go:218-472): themes and answers in two
 * flat maps plus two counters, written out to a file after every change.
 * Unlike InMemoryStore it numbers new records itself ("theme_<n>",
 * "answer_<n>"), stamps their times, refuses an answer to an unknown theme,
 * checks that an answer belongs to the theme it is addressed through, and
 * deletes a theme's answers with the theme.
 *
 * saveToFile is a step that may fail: each mutator takes its outcome as
 * `saveOk`.  The map change happens first, so a failed save is reported but
 * the change is kept.  The clock is the parameter `now`.
 */
module JsonStore {
  import opened Records
  import Decimal
  import Listing

  const ThemePrefix: string := "theme_"
  const AnswerPrefix: string := "answer_"

  /** fmt.Sprintf("theme_%d", n): the prefix, then the counter value it can be read back from. */
  function ThemeKey(n: int): (k: string)
    ensures ThemePrefix <= k && |k| > |ThemePrefix|
    ensures KeyNumber(ThemePrefix, k) == Some(n)
  {
    KeyNumberOfKey(ThemePrefix, n);
    ThemePrefix + Decimal.Format(n)
  }

  /** fmt.Sprintf("answer_%d", n): the prefix, then the counter value it can be read back from. */
  function AnswerKey(n: int): (k: string)
    ensures AnswerPrefix <= k && |k| > |AnswerPrefix|
    ensures KeyNumber(AnswerPrefix, k) == Some(n)
  {
    KeyNumberOfKey(AnswerPrefix, n);
    AnswerPrefix + Decimal.Format(n)
  }

  /** The counter value a generated key was built from, if key has that shape. */
  function KeyNumber(prefix: string, key: string): Option<int> {
    if prefix <= key then Decimal.Parse(key[|prefix|..]) else None
  }

  lemma KeyNumberOfKey(prefix: string, n: int)
    ensures KeyNumber(prefix, prefix + Decimal.Format(n)) == Some(n)
  {
    assert (prefix + Decimal.Format(n))[|prefix|..] == Decimal.Format(n);
    Decimal.ParseFormat(n);
  }

  /** key was generated from a counter value below next. */
  predicate IssuedBefore(prefix: string, key: string, next: int) {
    var n := KeyNumber(prefix, key);
    n.Some? && n.value < next
  }

  /** What a mutator returns after its change: saveToFile's outcome. */
  function SaveResult(saveOk: bool): (r: Outcome)
    ensures r.Done? <==> saveOk
    ensures r.Failed? ==> r.error == SaveFailed
  {
    if saveOk then Done else Failed(SaveFailed)
  }

  datatype JsonState = JsonState(
    themes: map<string, Theme>,
    answers: map<string, Answer>,
    nextThemeId: int,
    nextAnswerId: int)
  {
    /**
     * The invariant of a store that started without a file: records sit
     * under their own ids, every id was issued from a counter value below
     * the current one, and every answer refers to a stored theme.
     */
    ghost predicate Valid() {
      && (forall k :: k in themes ==> themes[k].id == k && IssuedBefore(ThemePrefix, k, nextThemeId))
      && (forall k :: k in answers ==>
            answers[k].id == k && IssuedBefore(AnswerPrefix, k, nextAnswerId) && answers[k].themeId in themes)
    }

    function GetTheme(id: string): (r: Result<Theme>)
      ensures r.Ok? <==> id in themes
      ensures r.Ok? ==> r.value == themes[id]
      ensures r.Err? ==> r.error == NotFound
      ensures Valid() && r.Ok? ==> r.value.id == id
    {
      if id in themes then Ok(themes[id]) else Err(NotFound)
    }

    /** The theme CreateTheme stores: numbered from the counter, stamped, active. */
    function StampTheme(t: Theme, now: Time): (r: Theme)
      ensures r.id == ThemeKey(nextThemeId)
      ensures r.active && r.createdAt == now && r.updatedAt == now
      ensures r.title == t.title && r.description == t.description && r.createdBy == t.createdBy
      ensures Valid() ==> r.id !in themes
    {
      t.(id := ThemeKey(nextThemeId), createdAt := now, updatedAt := now, active := true)
    }

    function CreateTheme(t: Theme, now: Time, saveOk: bool): (r: Step<JsonState>)
      ensures r.outcome == SaveResult(saveOk)
      ensures r.next.themes == themes[StampTheme(t, now).id := StampTheme(t, now)]
      ensures r.next.nextThemeId == nextThemeId + 1
      ensures r.next.answers == answers && r.next.nextAnswerId == nextAnswerId
      ensures Valid() ==> r.next.Valid() && |r.next.themes| == |themes| + 1
    {
      var stamped := StampTheme(t, now);
      var next := JsonState(themes[stamped.id := stamped], answers, nextThemeId + 1, nextAnswerId);
      Step(SaveResult(saveOk), next)
    }

    /** UpdateTheme: NotFound when absent; otherwise stores t with a fresh updatedAt. */
    function UpdateTheme(t: Theme, now: Time, saveOk: bool): (r: Step<JsonState>)
      ensures t.id !in themes ==> r == Step(Failed(NotFound), this)
      ensures t.id in themes ==> r.outcome == SaveResult(saveOk)
      ensures t.id in themes ==> r.next == this.(themes := themes[t.id := t.(updatedAt := now)])
      ensures Valid() ==> r.next.Valid()
    {
      if t.id !in themes then Step(Failed(NotFound), this)
      else Step(SaveResult(saveOk), this.(themes := themes[t.id := t.(updatedAt := now)]))
    }

    /** The answers that survive the deletion of theme id. */
    function WithoutTheme(id: string): (m: map<string, Answer>)
      ensures forall k :: k in m ==> k in answers && m[k] == answers[k] && m[k].themeId != id
      ensures forall k :: k in answers && answers[k].themeId != id ==> k in m
    {
      map k | k in answers && answers[k].themeId != id :: answers[k]
    }

    /** DeleteTheme: NotFound when absent; otherwise removes the theme and every answer to it. */
    function DeleteTheme(id: string, saveOk: bool): (r: Step<JsonState>)
      ensures id !in themes ==> r == Step(Failed(NotFound), this)
      ensures id in themes ==> r.outcome == SaveResult(saveOk)
      ensures id in themes ==> r.next.themes == themes - {id}
      ensures id in themes ==> forall k :: k in r.next.answers ==> r.next.answers[k].themeId != id
      ensures forall k :: k in r.next.answers ==> k in answers && r.next.answers[k] == answers[k]
      ensures forall k :: k in answers && answers[k].themeId != id ==> k in r.next.answers
      ensures r.next.nextThemeId == nextThemeId && r.next.nextAnswerId == nextAnswerId
      ensures Valid() ==> r.next.Valid()
    {
      if id !in themes then Step(Failed(NotFound), this)
      else Step(SaveResult(saveOk), this.(themes := themes - {id}, answers := WithoutTheme(id)))
    }

    /** GetAnswer: NotFound when absent or filed under another theme. */
    function GetAnswer(id: string, themeId: string): (r: Result<Answer>)
      ensures r.Ok? <==> id in answers && answers[id].themeId == themeId
      ensures r.Ok? ==> r.value == answers[id]
      ensures r.Err? ==> r.error == NotFound
      ensures Valid() && r.Ok? ==> r.value.id == id
    {
      if id !in answers || answers[id].themeId != themeId then Err(NotFound) else Ok(answers[id])
    }

    /** What ListAnswers lists: exactly the answers GetAnswer finds under themeId. */
    function OwnedBy(themeId: string): (m: map<string, Answer>)
      ensures forall k :: k in m <==> GetAnswer(k, themeId).Ok?
      ensures forall k :: k in m ==> GetAnswer(k, themeId) == Ok(m[k])
    {
      map k | k in answers && answers[k].themeId == themeId :: answers[k]
    }

    /** The answer CreateAnswer stores: numbered from the counter and stamped; likes untouched. */
    function StampAnswer(a: Answer, now: Time): (r: Answer)
      ensures r.id == AnswerKey(nextAnswerId)
      ensures r.createdAt == now && r.updatedAt == now
      ensures r.themeId == a.themeId && r.content == a.content && r.createdBy == a.createdBy && r.likes == a.likes
      ensures Valid() ==> r.id !in answers
    {
      a.(id := AnswerKey(nextAnswerId), createdAt := now, updatedAt := now)
    }

    /** CreateAnswer: NotFound (and no change, no counter step) when the theme is not stored. */
    function CreateAnswer(a: Answer, now: Time, saveOk: bool): (r: Step<JsonState>)
      ensures a.themeId !in themes ==> r == Step(Failed(NotFound), this)
      ensures a.themeId in themes ==> r.outcome == SaveResult(saveOk)
      ensures a.themeId in themes ==> r.next.answers == answers[StampAnswer(a, now).id := StampAnswer(a, now)]
      ensures a.themeId in themes ==> r.next.nextAnswerId == nextAnswerId + 1
      ensures r.next.themes == themes && r.next.nextThemeId == nextThemeId
      ensures Valid() ==> r.next.Valid()
    {
      if a.themeId !in themes then Step(Failed(NotFound), this)
      else
        var stamped := StampAnswer(a, now);
        var next := this.(answers := answers[stamped.id := stamped], nextAnswerId := nextAnswerId + 1);
        Step(SaveResult(saveOk), next)
    }

    /** UpdateAnswer: NotFound unless a.id is stored under a.themeId; then stores a with a fresh updatedAt. */
    function UpdateAnswer(a: Answer, now: Time, saveOk: bool): (r: Step<JsonState>)
      ensures GetAnswer(a.id, a.themeId).Err? ==> r == Step(Failed(NotFound), this)
      ensures GetAnswer(a.id, a.themeId).Ok? ==> r.outcome == SaveResult(saveOk)
      ensures GetAnswer(a.id, a.themeId).Ok? ==> r.next == this.(answers := answers[a.id := a.(updatedAt := now)])
      ensures Valid() ==> r.next.Valid()
    {
      if a.id !in answers || answers[a.id].themeId != a.themeId then Step(Failed(NotFound), this)
      else Step(SaveResult(saveOk), this.(answers := answers[a.id := a.(updatedAt := now)]))
    }

    /** DeleteAnswer: NotFound unless id is stored under themeId; then removes it. */
    function DeleteAnswer(id: string, themeId: string, saveOk: bool): (r: Step<JsonState>)
      ensures GetAnswer(id, themeId).Err? ==> r == Step(Failed(NotFound), this)
      ensures GetAnswer(id, themeId).Ok? ==> r.outcome == SaveResult(saveOk)
      ensures GetAnswer(id, themeId).Ok? ==> r.next == this.(answers := answers - {id})
      ensures Valid() ==> r.next.Valid()
    {
      if id !in answers || answers[id].themeId != themeId then Step(Failed(NotFound), this)
      else Step(SaveResult(saveOk), this.(answers := answers - {id}))
    }
  }

  /** The state NewJSONStore starts from when there is no usable file. */
  const Fresh: JsonState := JsonState(map[], map[], 1, 1)

  lemma FreshIsValid()
    ensures Fresh.Valid()
  {
  }

  /** What loadFromFile finds at the store's path. */
  datatype StoredFile = NoFile | Unreadable | Saved(contents: JsonState)

  /** The file-backed store; every call is atomic (its lock is not modelled). */
  class JSONStore {
    var themes: map<string, Theme>
    var answers: map<string, Answer>
    var nextThemeID: int
    var nextAnswerID: int

    ghost function State(): JsonState
      reads this
    {
      JsonState(themes, answers, nextThemeID, nextAnswerID)
    }

    /**
     * NewJSONStore followed by loadFromFile: counters at 1 and empty maps,
     * replaced wholesale by the file's contents when it can be read and parsed.
     */
    constructor (file: StoredFile)
      ensures file.Saved? ==> State() == file.contents
      ensures !file.Saved? ==> State() == Fresh && State().Valid()
    {
      themes, answers := map[], map[];
      nextThemeID, nextAnswerID := 1, 1;
      if file.Saved? {
        themes, answers := file.contents.themes, file.contents.answers;
        nextThemeID, nextAnswerID := file.contents.nextThemeId, file.contents.nextAnswerId;
      }
    }

    method GetTheme(id: string) returns (r: Result<Theme>)
      ensures r == State().GetTheme(id)
    {
      if id !in themes {
        return Err(NotFound);
      }
      r := Ok(themes[id]);
    }

    method ListThemes() returns (r: seq<Theme>, ghost order: seq<string>)
      ensures Listing.Enumerates(r, order, themes)
      ensures Listing.Lists(r, themes)
    {
      r, order := Listing.Values(themes);
    }

    /** Returns the error and the record as stamped (the caller's record is stamped in place). */
    method CreateTheme(theme: Theme, now: Time, saveOk: bool) returns (err: Outcome, stored: Theme)
      modifies this
      ensures stored == old(State()).StampTheme(theme, now)
      ensures Step(err, State()) == old(State()).CreateTheme(theme, now, saveOk)
    {
      stored := theme.(id := ThemeKey(nextThemeID), createdAt := now, updatedAt := now, active := true);
      themes := themes[stored.id := stored];
      nextThemeID := nextThemeID + 1;
      err := SaveResult(saveOk);
    }

    /** Returns the error and the caller's record, restamped unless the theme was not found. */
    method UpdateTheme(theme: Theme, now: Time, saveOk: bool) returns (err: Outcome, stored: Theme)
      modifies this
      ensures err == Failed(NotFound) ==> stored == theme
      ensures err != Failed(NotFound) ==> stored == theme.(updatedAt := now)
      ensures Step(err, State()) == old(State()).UpdateTheme(theme, now, saveOk)
    {
      if theme.id !in themes {
        return Failed(NotFound), theme;
      }
      stored := theme.(updatedAt := now);
      themes := themes[theme.id := stored];
      err := SaveResult(saveOk);
    }

    /** Deletes the theme, then walks the answers deleting those that refer to it. */
    method DeleteTheme(id: string, saveOk: bool) returns (err: Outcome)
      modifies this
      ensures Step(err, State()) == old(State()).DeleteTheme(id, saveOk)
    {
      if id !in themes {
        return Failed(NotFound);
      }
      themes := themes - {id};
      ghost var before := answers;
      var pending := answers.Keys;
      while pending != {}
        invariant themes == old(themes) - {id}
        invariant nextThemeID == old(nextThemeID) && nextAnswerID == old(nextAnswerID)
        invariant pending <= before.Keys
        invariant forall k :: k in answers <==> k in before && (k in pending || before[k].themeId != id)
        invariant forall k :: k in answers ==> answers[k] == before[k]
        decreases pending
      {
        var answerId :| answerId in pending;
        if answers[answerId].themeId == id {
          answers := answers - {answerId};
        }
        pending := pending - {answerId};
      }
      assert answers == old(State()).WithoutTheme(id);
      err := SaveResult(saveOk);
    }

    method GetAnswer(id: string, themeId: string) returns (r: Result<Answer>)
      ensures r == State().GetAnswer(id, themeId)
    {
      if id !in answers || answers[id].themeId != themeId {
        return Err(NotFound);
      }
      r := Ok(answers[id]);
    }

    /** Walks all answers, keeping those that refer to themeId. */
    method ListAnswers(themeId: string) returns (r: seq<Answer>, ghost order: seq<string>)
      ensures Listing.Enumerates(r, order, State().OwnedBy(themeId))
      ensures Listing.Lists(r, State().OwnedBy(themeId))
    {
      ghost var owned := State().OwnedBy(themeId);
      r, order := [], [];
      var pending := answers.Keys;
      while pending != {}
        invariant pending <= answers.Keys
        invariant |order| == |r|
        invariant forall i :: 0 <= i < |order| ==> order[i] in owned && order[i] !in pending && r[i] == owned[order[i]]
        invariant forall i, j :: 0 <= i < j < |order| ==> order[i] != order[j]
        invariant forall k :: k in owned && k !in pending ==> k in order
        decreases pending
      {
        var answerId :| answerId in pending;
        if answers[answerId].themeId == themeId {
          r, order := r + [answers[answerId]], order + [answerId];
        }
        pending := pending - {answerId};
      }
      Listing.EnumerationLists(r, order, owned);
    }

    /** Returns the error and the caller's record, stamped unless its theme was not found. */
    method CreateAnswer(answer: Answer, now: Time, saveOk: bool) returns (err: Outcome, stored: Answer)
      modifies this
      ensures err == Failed(NotFound) ==> stored == answer
      ensures err != Failed(NotFound) ==> stored == old(State()).StampAnswer(answer, now)
      ensures Step(err, State()) == old(State()).CreateAnswer(answer, now, saveOk)
    {
      if answer.themeId !in themes {
        return Failed(NotFound), answer;
      }
      stored := answer.(id := AnswerKey(nextAnswerID), createdAt := now, updatedAt := now);
      answers := answers[stored.id := stored];
      nextAnswerID := nextAnswerID + 1;
      err := SaveResult(saveOk);
    }

    /** Returns the error and the caller's record, restamped unless the answer was not found. */
    method UpdateAnswer(answer: Answer, now: Time, saveOk: bool) returns (err: Outcome, stored: Answer)
      modifies this
      ensures err == Failed(NotFound) ==> stored == answer
      ensures err != Failed(NotFound) ==> stored == answer.(updatedAt := now)
      ensures Step(err, State()) == old(State()).UpdateAnswer(answer, now, saveOk)
    {
      if answer.id !in answers || answers[answer.id].themeId != answer.themeId {
        return Failed(NotFound), answer;
      }
      stored := answer.(updatedAt := now);
      answers := answers[answer.id := stored];
      err := SaveResult(saveOk);
    }

    method DeleteAnswer(id: string, themeId: string, saveOk: bool) returns (err: Outcome)
      modifies this
      ensures Step(err, State()) == old(State()).DeleteAnswer(id, themeId, saveOk)
    {
      if id !in answers || answers[id].themeId != themeId {
        return Failed(NotFound);
      }
      answers := answers - {id};
      err := SaveResult(saveOk);
    }
  }
}
