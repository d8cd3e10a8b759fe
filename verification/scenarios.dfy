/** Sequences of requests, and a few concrete situations: a first submission,
    two on one date, two on different dates. */
module Scenarios {
  import opened Options
  import opened Labels
  import opened Journal
  import opened Ingest

  /** One incoming request together with the id and date key generated for it. */
  datatype Request = Request(body: Option<Body>, entryId: string, today: string)

  /** Requests handled one after another, each on the state the previous left. */
  function Run(s: State, reqs: seq<Request>, classify: string -> int): State
    decreases |reqs|
  {
    if |reqs| == 0 then s
    else Run(ModeTrack(s, reqs[0].body, classify, reqs[0].entryId, reqs[0].today).state, reqs[1..], classify)
  }

  /** A single request never removes an entry nor a user. */
  lemma StepKeepsEntries(s: State, body: Option<Body>, classify: string -> int, entryId: string, today: string)
    ensures
      var s' := ModeTrack(s, body, classify, entryId, today).state;
      && s'.users.Keys == s.users.Keys
      && forall u :: DocEntries(s.journals, u) <= DocEntries(s'.journals, u)
  {
    var r := ModeTrack(s, body, classify, entryId, today);
    if r.outcome.Ok? {
      AcceptedAddsOneEntry(s, body, classify, entryId, today);
    }
  }

  /** Any run keeps the invariant, keeps the set of users, and only ever adds entries. */
  lemma {:induction false} RunPreservesValid(s: State, reqs: seq<Request>, classify: string -> int)
    requires Valid(s)
    ensures Valid(Run(s, reqs, classify))
    ensures Run(s, reqs, classify).users.Keys == s.users.Keys
    ensures forall u :: DocEntries(s.journals, u) <= DocEntries(Run(s, reqs, classify).journals, u)
    decreases |reqs|
  {
    if |reqs| > 0 {
      var s1 := ModeTrack(s, reqs[0].body, classify, reqs[0].entryId, reqs[0].today).state;
      StepPreservesValid(s, reqs[0].body, classify, reqs[0].entryId, reqs[0].today);
      StepKeepsEntries(s, reqs[0].body, classify, reqs[0].entryId, reqs[0].today);
      RunPreservesValid(s1, reqs[1..], classify);
    }
  }

  /** A well-formed submission body. */
  function Submission(email: string, title: string, sentence: string): Body {
    map[EmailKey := JText(email), TitleKey := JText(title), SentenceKey := JText(sentence)]
  }

  /** The entry a submission stores. */
  function StoredEntry(id: string, title: string, sentence: string, classify: string -> int): Entry {
    Entry(id, Some(title), sentence, Predict(classify, sentence))
  }

  /** A well-formed submission body yields its email, sentence and title. */
  lemma SubmissionFields(email: string, title: string, sentence: string)
    requires email != "" && sentence != ""
    ensures RequiredText(Submission(email, title, sentence), EmailKey) == Some(email)
    ensures RequiredText(Submission(email, title, sentence), SentenceKey) == Some(sentence)
    ensures OptionalText(Submission(email, title, sentence), TitleKey) == Some(title)
  {
  }

  /** A user's first submission creates a document with one bucket, dated
      today, holding exactly the new entry. */
  lemma FirstSubmission(s: State, email: string, title: string, sentence: string,
                        classify: string -> int, id: string, today: string)
    requires email != "" && sentence != ""
    requires email in s.users && email !in s.journals
    ensures
      var r := ModeTrack(s, Some(Submission(email, title, sentence)), classify, id, today);
      && r.outcome == Ok(Predict(classify, sentence), sentence)
      && r.state.journals[email] == [Bucket(today, [StoredEntry(id, title, sentence, classify)])]
      && r.state.users[email].currentMode == Some(Predict(classify, sentence))
  {
    SubmissionFields(email, title, sentence);
  }

  /** Two submissions on the same date land in one bucket, in submission order. */
  lemma SameDateTwice(s: State, email: string, t1: string, x1: string, t2: string, x2: string,
                      classify: string -> int, id1: string, id2: string, today: string)
    requires email != "" && x1 != "" && x2 != ""
    requires email in s.users && email !in s.journals
    ensures
      var s1 := ModeTrack(s, Some(Submission(email, t1, x1)), classify, id1, today).state;
      var r := ModeTrack(s1, Some(Submission(email, t2, x2)), classify, id2, today);
      && r.outcome == Ok(Predict(classify, x2), x2)
      && r.state.journals[email] ==
         [Bucket(today, [StoredEntry(id1, t1, x1, classify), StoredEntry(id2, t2, x2, classify)])]
      && r.state.users[email].currentMode == Some(Predict(classify, x2))
  {
    SubmissionFields(email, t1, x1);
    SubmissionFields(email, t2, x2);
    var e1 := StoredEntry(id1, t1, x1, classify);
    var e2 := StoredEntry(id2, t2, x2, classify);
    var s1 := ModeTrack(s, Some(Submission(email, t1, x1)), classify, id1, today).state;
    assert s1.journals[email] == [Bucket(today, [e1])];
    assert FindBucket(s1.journals[email], today) == Some(0);
    var r := ModeTrack(s1, Some(Submission(email, t2, x2)), classify, id2, today);
    assert r.state.journals[email] == AddToBuckets([Bucket(today, [e1])], today, e2);
    assert [e1] + [e2] == [e1, e2];
  }

  /** Two submissions on different dates land in two buckets, in date order of arrival. */
  lemma TwoDates(s: State, email: string, t1: string, x1: string, t2: string, x2: string,
                 classify: string -> int, id1: string, id2: string, day1: string, day2: string)
    requires email != "" && x1 != "" && x2 != ""
    requires email in s.users && email !in s.journals
    requires day1 != day2
    ensures
      var s1 := ModeTrack(s, Some(Submission(email, t1, x1)), classify, id1, day1).state;
      var r := ModeTrack(s1, Some(Submission(email, t2, x2)), classify, id2, day2);
      && r.outcome == Ok(Predict(classify, x2), x2)
      && r.state.journals[email] ==
         [Bucket(day1, [StoredEntry(id1, t1, x1, classify)]), Bucket(day2, [StoredEntry(id2, t2, x2, classify)])]
  {
  }

  /** The worked example: "a@x.com" writes "I feel fine" twice on one day and
      the classifier answers class 0 both times. */
  lemma NormalTwiceSameDay(id1: string, id2: string, today: string)
    ensures
      var classify := (x: string) => 0;
      var s := State(map["a@x.com" := UserRec(None, map[])], map[]);
      var body := Some(Submission("a@x.com", "Day1", "I feel fine"));
      var r := Run(s, [Request(body, id1, today), Request(body, id2, today)], classify);
      && r.journals == map["a@x.com" := [Bucket(today, [
           Entry(id1, Some("Day1"), "I feel fine", "Normal"),
           Entry(id2, Some("Day1"), "I feel fine", "Normal")])]]
      && "a@x.com" in r.users
      && r.users["a@x.com"].currentMode == Some("Normal")
  {
    var classify := (x: string) => 0;
    var s := State(map["a@x.com" := UserRec(None, map[])], map[]);
    var body := Some(Submission("a@x.com", "Day1", "I feel fine"));
    var reqs := [Request(body, id1, today), Request(body, id2, today)];
    SameDateTwice(s, "a@x.com", "Day1", "I feel fine", "Day1", "I feel fine", classify, id1, id2, today);
    var s1 := ModeTrack(s, body, classify, id1, today).state;
    assert reqs[1..] == [Request(body, id2, today)];
    assert Run(s, reqs, classify) == Run(s1, [Request(body, id2, today)], classify);
    assert [Request(body, id2, today)][1..] == [];
  }

  /** One well-formed submission by a known user, whatever their document holds. */
  // Automatic induction is switched off here and below: these lemmas are not
  // inductive, and the hypotheses it would add over `State` only slow the solver.
  lemma {:induction false} SubmitOnce(s: State, email: string, title: string, sentence: string,
                   classify: string -> int, id: string, today: string)
    requires email != "" && sentence != ""
    requires email in s.users
    ensures
      var r := ModeTrack(s, Some(Submission(email, title, sentence)), classify, id, today);
      && r.outcome == Ok(Predict(classify, sentence), sentence)
      && email in r.state.users
      && DocEntriesOn(r.state.journals, email, today) ==
         DocEntriesOn(s.journals, email, today) + [StoredEntry(id, title, sentence, classify)]
  {
    SubmissionFields(email, title, sentence);
    AcceptedAddsOneEntry(s, Some(Submission(email, title, sentence)), classify, id, today);
  }

  /** Two submissions on one date by a user who may already have a document:
      that date's entries end with both new entries in submission order. */
  lemma {:induction false} TwoOnOneDate(s: State, email: string, t1: string, x1: string, t2: string, x2: string,
                     classify: string -> int, id1: string, id2: string, today: string)
    requires email != "" && x1 != "" && x2 != ""
    requires email in s.users
    ensures
      var s1 := ModeTrack(s, Some(Submission(email, t1, x1)), classify, id1, today).state;
      var r := ModeTrack(s1, Some(Submission(email, t2, x2)), classify, id2, today);
      && r.outcome == Ok(Predict(classify, x2), x2)
      && DocEntriesOn(r.state.journals, email, today) ==
         DocEntriesOn(s.journals, email, today) + [StoredEntry(id1, t1, x1, classify), StoredEntry(id2, t2, x2, classify)]
  {
    var e1 := StoredEntry(id1, t1, x1, classify);
    var e2 := StoredEntry(id2, t2, x2, classify);
    var s1 := ModeTrack(s, Some(Submission(email, t1, x1)), classify, id1, today).state;
    SubmitOnce(s, email, t1, x1, classify, id1, today);
    SubmitOnce(s1, email, t2, x2, classify, id2, today);
    var r := ModeTrack(s1, Some(Submission(email, t2, x2)), classify, id2, today);
    var before := DocEntriesOn(s.journals, email, today);
    assert DocEntriesOn(s1.journals, email, today) == before + [e1];
    assert DocEntriesOn(r.state.journals, email, today) == before + [e1] + [e2];
    assert before + [e1] + [e2] == before + [e1, e2];
  }

  /** Two submissions on one date by a known user, starting from a collection
      with one bucket per date: one bucket per date is kept, and the single
      bucket dated that day holds its earlier entries followed by both new
      entries in submission order.
      (Automatic induction is switched off: there is nothing to induct on, and
      the hypotheses it would add over `State` only slow the solver.) */
  lemma {:induction false} TwoOnOneDateKeepsDates(s: State, email: string, t1: string, x1: string, t2: string, x2: string,
                                                  classify: string -> int, id1: string, id2: string, today: string)
    requires WellFormed(s.journals)
    requires email != "" && x1 != "" && x2 != ""
    requires email in s.users
    ensures
      var s1 := ModeTrack(s, Some(Submission(email, t1, x1)), classify, id1, today).state;
      var r := ModeTrack(s1, Some(Submission(email, t2, x2)), classify, id2, today);
      && WellFormed(r.state.journals)
      && email in r.state.journals
      && var doc := r.state.journals[email];
         exists k :: 0 <= k < |doc| && doc[k].date == today
           && doc[k].entries == DocEntriesOn(s.journals, email, today)
                                + [StoredEntry(id1, t1, x1, classify), StoredEntry(id2, t2, x2, classify)]
           && forall j :: 0 <= j < |doc| && j != k ==> doc[j].date != today
  {
    var s1 := ModeTrack(s, Some(Submission(email, t1, x1)), classify, id1, today).state;
    var r := ModeTrack(s1, Some(Submission(email, t2, x2)), classify, id2, today);
    StepKeepsWellFormed(s, Some(Submission(email, t1, x1)), classify, id1, today);
    StepKeepsWellFormed(s1, Some(Submission(email, t2, x2)), classify, id2, today);
    TwoOnOneDate(s, email, t1, x1, t2, x2, classify, id1, id2, today);
    SubmissionFields(email, t2, x2);
    assert email in r.state.journals;
    var doc := r.state.journals[email];
    assert UniqueDates(doc);
    assert email in s1.journals;
    assert HasDate(doc, today) by {
      AddPreservesUniqueDates(s1.journals[email], today, StoredEntry(id2, t2, x2, classify));
    }
    var k := FindBucket(doc, today).value;
    assert doc[k].entries == DocEntriesOn(r.state.journals, email, today);
  }
}
