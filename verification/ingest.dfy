/** The mode-tracking request handler as a pure transition over the two
    collections it touches: validate the body, look the user up, classify the
    sentence, merge the entry into the journal, record the user's current mode. */
module Ingest {
  import opened Options
  import opened Labels
  import opened Journal

  /** A JSON field value, as far as the handler tells values apart. */
  datatype Json = JNull | JText(text: string)

  /** A parsed JSON object body. */
  type Body = map<string, Json>

  /** A user document: the projected `current_mode` field and every other field. */
  datatype UserRec = UserRec(currentMode: Option<string>, profile: map<string, string>)

  /** The users collection and the journal collection, both keyed by email. */
  datatype State = State(users: map<string, UserRec>, journals: Journals)

  /** What the client is told: the three rejections and the success echo. */
  datatype Outcome =
    | BadRequestEmpty
    | BadRequestFields
    | NotFound
    | Ok(prediction: string, content: string)

  datatype Response = Response(outcome: Outcome, state: State)

  const EmailKey: string := "email"
  const TitleKey: string := "title"
  const SentenceKey: string := "sentence"

  /** `not data`: no body at all, or an empty object. */
  predicate IsEmptyBody(body: Option<Body>) {
    body.None? || body.value == map[]
  }

  /** A required string field under Python truthiness: missing, null and the
      empty string all count as absent. */
  function RequiredText(body: Body, key: string): (r: Option<string>)
    ensures r.None? <==> key !in body || body[key] == JNull || body[key] == JText("")
    ensures r.Some? ==> r.value != "" && key in body && body[key] == JText(r.value)
  {
    if key in body && body[key].JText? && body[key].text != "" then Some(body[key].text) else None
  }

  /** An optional string field as stored: the string when one was sent, null otherwise. */
  function OptionalText(body: Body, key: string): (r: Option<string>)
    ensures r.None? <==> key !in body || body[key] == JNull
    ensures r.Some? ==> key in body && body[key] == JText(r.value)
  {
    if key in body && body[key].JText? then Some(body[key].text) else None
  }

  /** Both required fields are present. */
  predicate HasRequiredFields(body: Body) {
    RequiredText(body, EmailKey).Some? && RequiredText(body, SentenceKey).Some?
  }

  /** One request: `classify` is the embedding and decision model, `entryId`
      the freshly generated identifier and `today` the UTC date key. */
  function ModeTrack(s: State, body: Option<Body>, classify: string -> int, entryId: string, today: string): (r: Response)
    ensures r.outcome.BadRequestEmpty? <==> IsEmptyBody(body)
    ensures r.outcome.BadRequestFields? <==> !IsEmptyBody(body) && !HasRequiredFields(body.value)
    ensures r.outcome.NotFound? <==>
      !IsEmptyBody(body) && HasRequiredFields(body.value) && RequiredText(body.value, EmailKey).value !in s.users
    ensures !r.outcome.Ok? ==> r.state == s
    ensures r.outcome.Ok? ==> body.Some? && HasRequiredFields(body.value)
    ensures r.outcome.Ok? ==>
      var email := RequiredText(body.value, EmailKey).value;
      var sentence := RequiredText(body.value, SentenceKey).value;
      var mood := r.outcome.prediction;
      && email in s.users
      && IsPrediction(mood)
      && mood == Predict(classify, sentence)
      && r.outcome.content == sentence
      && r.state.users.Keys == s.users.Keys
      && r.state.users[email] == s.users[email].(currentMode := Some(mood))
      && (forall u :: u in s.users && u != email ==> r.state.users[u] == s.users[u])
      && r.state.journals ==
         Append(s.journals, email, today, Entry(entryId, OptionalText(body.value, TitleKey), sentence, mood))
  {
    if IsEmptyBody(body) then Response(BadRequestEmpty, s)
    else
      var data := body.value;
      var email := RequiredText(data, EmailKey);
      var title := OptionalText(data, TitleKey);
      var sentence := RequiredText(data, SentenceKey);
      if email.None? || sentence.None? then Response(BadRequestFields, s)
      else if email.value !in s.users then Response(NotFound, s)
      else
        var mood := Predict(classify, sentence.value);
        var entry := Entry(entryId, title, sentence.value, mood);
        var journals := Append(s.journals, email.value, today, entry);
        var users := s.users[email.value := s.users[email.value].(currentMode := Some(mood))];
        Response(Ok(mood, sentence.value), State(users, journals))
  }

  /** The state invariant: every document keeps one bucket per date, and only
      known users have a document. */
  ghost predicate Valid(s: State) {
    WellFormed(s.journals) && s.journals.Keys <= s.users.Keys
  }

  /** Every request keeps one bucket per date in every document, whatever else
      the store holds. */
  lemma StepKeepsWellFormed(s: State, body: Option<Body>, classify: string -> int, entryId: string, today: string)
    requires WellFormed(s.journals)
    ensures WellFormed(ModeTrack(s, body, classify, entryId, today).state.journals)
  {
    var r := ModeTrack(s, body, classify, entryId, today);
    if r.outcome.Ok? {
      AppendSpec(s.journals, RequiredText(body.value, EmailKey).value, today,
        Entry(entryId, OptionalText(body.value, TitleKey), RequiredText(body.value, SentenceKey).value, r.outcome.prediction));
    }
  }

  /** Every request, accepted or not, keeps the invariant. */
  lemma StepPreservesValid(s: State, body: Option<Body>, classify: string -> int, entryId: string, today: string)
    requires Valid(s)
    ensures Valid(ModeTrack(s, body, classify, entryId, today).state)
  {
  }

  /** An accepted request adds exactly one entry, to its own user's document,
      at the end of today's entries, and that entry carries the mode now
      recorded for the user. */
  lemma AcceptedAddsOneEntry(s: State, body: Option<Body>, classify: string -> int, entryId: string, today: string)
    requires ModeTrack(s, body, classify, entryId, today).outcome.Ok?
    ensures
      var r := ModeTrack(s, body, classify, entryId, today);
      var email := RequiredText(body.value, EmailKey).value;
      var entry := Entry(entryId, OptionalText(body.value, TitleKey), RequiredText(body.value, SentenceKey).value, r.outcome.prediction);
      && DocEntries(r.state.journals, email) == DocEntries(s.journals, email) + multiset{entry}
      && DocEntriesOn(r.state.journals, email, today) == DocEntriesOn(s.journals, email, today) + [entry]
      && r.state.users[email].currentMode == Some(entry.prediction)
      && (forall u :: u != email ==> DocEntries(r.state.journals, u) == DocEntries(s.journals, u))
  {
    var r := ModeTrack(s, body, classify, entryId, today);
    var email := RequiredText(body.value, EmailKey).value;
    var entry := Entry(entryId, OptionalText(body.value, TitleKey), RequiredText(body.value, SentenceKey).value, r.outcome.prediction);
    if email in s.journals {
      AddAddsExactlyOne(s.journals[email], today, entry);
      AddRefinesDateView(s.journals[email], today, entry, today);
    } else {
      var doc := [Bucket(today, [entry])];
      assert doc[1..] == [];
      assert AllEntries(doc) == multiset{entry};
      assert FindBucket(doc, today) == Some(0);
    }
  }

  /** A request without a title is accepted like one with, and stores a null title. */
  lemma TitleIsOptional(s: State, email: string, sentence: string, classify: string -> int, entryId: string, today: string)
    requires email != "" && sentence != "" && email in s.users
    ensures
      var r := ModeTrack(s, Some(map[EmailKey := JText(email), SentenceKey := JText(sentence)]), classify, entryId, today);
      && r.outcome == Ok(Predict(classify, sentence), sentence)
      && r.state.journals == Append(s.journals, email, today, Entry(entryId, None, sentence, Predict(classify, sentence)))
  {
    var body := map[EmailKey := JText(email), SentenceKey := JText(sentence)];
    assert EmailKey != SentenceKey by {
      assert EmailKey[0] == 'e' && SentenceKey[0] == 's';
    }
    assert TitleKey !in body by {
      assert TitleKey[0] == 't';
    }
    assert RequiredText(body, EmailKey) == Some(email);
    assert RequiredText(body, SentenceKey) == Some(sentence);
  }

  /** A non-empty body whose email or sentence is missing, null or "" is
      rejected with the fields-required response and changes nothing. */
  lemma MissingFieldRejected(s: State, body: Body, key: string, classify: string -> int, entryId: string, today: string)
    requires body != map[]
    requires key == EmailKey || key == SentenceKey
    requires key !in body || body[key] == JNull || body[key] == JText("")
    ensures ModeTrack(s, Some(body), classify, entryId, today) == Response(BadRequestFields, s)
  {
  }
}
