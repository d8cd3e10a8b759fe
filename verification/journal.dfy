/** The per-user journal document and the date-bucketed merge that adds one
    entry to it: push into today's bucket if there is one, otherwise push a new
    bucket, and create the document on the user's first submission. */
module Journal {
  import opened Options

  /** One accepted submission. The title is absent when the request had none. */
  datatype Entry = Entry(id: string, title: Option<string>, content: string, prediction: string)

  /** The entries submitted on one calendar date, in submission order. */
  datatype Bucket = Bucket(date: string, entries: seq<Entry>)

  /** The journal collection: user email -> that user's buckets. */
  type Journals = map<string, seq<Bucket>>

  /** The central invariant: no date has two buckets. */
  ghost predicate UniqueDates(buckets: seq<Bucket>) {
    forall i, j :: 0 <= i < j < |buckets| ==> buckets[i].date != buckets[j].date
  }

  ghost predicate HasDate(buckets: seq<Bucket>, date: string) {
    exists i :: 0 <= i < |buckets| && buckets[i].date == date
  }

  /** The first bucket dated `date`: the one the scan for today's bucket finds
      and the one the positional update pushes into. */
  function FindBucket(buckets: seq<Bucket>, date: string): (r: Option<nat>)
    ensures r.Some? ==> r.value < |buckets| && buckets[r.value].date == date
    ensures r.Some? ==> forall j :: 0 <= j < r.value ==> buckets[j].date != date
    ensures r.None? <==> !HasDate(buckets, date)
  {
    if |buckets| == 0 then None
    else if buckets[0].date == date then Some(0)
    else
      match FindBucket(buckets[1..], date)
      case None => None
      case Some(i) => Some(i + 1)
  }

  /** Adds `entry` to an existing journal document on `date`. */
  function AddToBuckets(buckets: seq<Bucket>, date: string, entry: Entry): (r: seq<Bucket>)
    // a bucket for the date exists: same buckets, in the same order, and only
    // that bucket changes, by gaining `entry` at its end
    ensures HasDate(buckets, date) ==>
      && |r| == |buckets|
      && (forall j :: 0 <= j < |r| ==> r[j].date == buckets[j].date)
      && (forall j :: 0 <= j < |r| && j != FindBucket(buckets, date).value ==> r[j] == buckets[j])
      && r[FindBucket(buckets, date).value].entries == buckets[FindBucket(buckets, date).value].entries + [entry]
    // no bucket for the date: existing buckets kept as they are, one new bucket at the end
    ensures !HasDate(buckets, date) ==>
      && |r| == |buckets| + 1
      && r[..|buckets|] == buckets
      && r[|buckets|] == Bucket(date, [entry])
  {
    match FindBucket(buckets, date)
    case Some(i) => buckets[i := buckets[i].(entries := buckets[i].entries + [entry])]
    case None => buckets + [Bucket(date, [entry])]
  }

  /** The merge over the whole collection. */
  function Append(journals: Journals, email: string, date: string, entry: Entry): (r: Journals)
    ensures r.Keys == journals.Keys + {email}
    ensures forall u :: u in journals && u != email ==> r[u] == journals[u]
    ensures email !in journals ==> r[email] == [Bucket(date, [entry])]
    ensures email in journals ==> r[email] == AddToBuckets(journals[email], date, entry)
  {
    if email in journals then journals[email := AddToBuckets(journals[email], date, entry)]
    else journals[email := [Bucket(date, [entry])]]
  }

  /** The journal seen as a function from date to entries: the entries of the
      bucket for `date`, or none. */
  function EntriesOn(buckets: seq<Bucket>, date: string): (es: seq<Entry>)
    ensures !HasDate(buckets, date) ==> es == []
  {
    match FindBucket(buckets, date)
    case Some(i) => buckets[i].entries
    case None => []
  }

  /** Every entry of a document, with multiplicity. */
  function AllEntries(buckets: seq<Bucket>): multiset<Entry> {
    if |buckets| == 0 then multiset{}
    else multiset(buckets[0].entries) + AllEntries(buckets[1..])
  }

  /** The merge keeps at most one bucket per date. */
  lemma AddPreservesUniqueDates(buckets: seq<Bucket>, date: string, entry: Entry)
    requires UniqueDates(buckets)
    ensures UniqueDates(AddToBuckets(buckets, date, entry))
    ensures HasDate(AddToBuckets(buckets, date, entry), date)
  {
  }

  /** Seen date by date, the merge appends `entry` to the date's entries and
      leaves every other date's entries alone. */
  lemma AddRefinesDateView(buckets: seq<Bucket>, date: string, entry: Entry, d: string)
    ensures EntriesOn(AddToBuckets(buckets, date, entry), d) ==
      if d == date then EntriesOn(buckets, d) + [entry] else EntriesOn(buckets, d)
  {
  }

  /** Entries of concatenated documents are the union of their entries. */
  lemma {:induction false} AllEntriesConcat(a: seq<Bucket>, b: seq<Bucket>)
    ensures AllEntries(a + b) == AllEntries(a) + AllEntries(b)
    decreases |a|
  {
    if |a| == 0 {
      assert a + b == b;
    } else {
      assert (a + b)[1..] == a[1..] + b;
      AllEntriesConcat(a[1..], b);
    }
  }

  /** A document's entries split around the bucket at position `i`. */
  lemma {:induction false} AllEntriesSplit(buckets: seq<Bucket>, i: nat)
    requires i < |buckets|
    ensures AllEntries(buckets) ==
      AllEntries(buckets[..i]) + multiset(buckets[i].entries) + AllEntries(buckets[i + 1..])
  {
    assert buckets == buckets[..i] + ([buckets[i]] + buckets[i + 1..]);
    AllEntriesConcat(buckets[..i], [buckets[i]] + buckets[i + 1..]);
    assert ([buckets[i]] + buckets[i + 1..])[1..] == buckets[i + 1..];
  }

  /** The merge adds exactly `entry` to the document and loses nothing. */
  lemma {:induction false} AddAddsExactlyOne(buckets: seq<Bucket>, date: string, entry: Entry)
    ensures AllEntries(AddToBuckets(buckets, date, entry)) == AllEntries(buckets) + multiset{entry}
  {
    var r := AddToBuckets(buckets, date, entry);
    if HasDate(buckets, date) {
      var k := FindBucket(buckets, date).value;
      AllEntriesSplit(buckets, k);
      AllEntriesSplit(r, k);
      assert r[..k] == buckets[..k];
      assert r[k + 1..] == buckets[k + 1..];
    } else {
      AllEntriesConcat(buckets, [Bucket(date, [entry])]);
      assert r == buckets + [Bucket(date, [entry])];
      assert AllEntries([Bucket(date, [entry])]) == multiset{entry} by {
        assert [Bucket(date, [entry])][1..] == [];
      }
    }
  }

  /** Every user's document keeps at most one bucket per date. */
  ghost predicate WellFormed(journals: Journals) {
    forall u :: u in journals ==> UniqueDates(journals[u])
  }

  /** The entries of `email`'s document; none when there is no document. */
  function DocEntries(journals: Journals, email: string): multiset<Entry> {
    if email in journals then AllEntries(journals[email]) else multiset{}
  }

  /** The entries `email`'s document holds for `date`; none when there is no document. */
  function DocEntriesOn(journals: Journals, email: string, date: string): seq<Entry> {
    if email in journals then EntriesOn(journals[email], date) else []
  }

  /** One merge over the collection: the invariant survives, the user's document
      gains exactly `entry`, at the end of `date`'s entries, every other date of
      that document is as it was, and no other user's document changes. */
  lemma AppendSpec(journals: Journals, email: string, date: string, entry: Entry)
    requires WellFormed(journals)
    ensures WellFormed(Append(journals, email, date, entry))
    ensures DocEntries(Append(journals, email, date, entry), email) == DocEntries(journals, email) + multiset{entry}
    ensures DocEntriesOn(Append(journals, email, date, entry), email, date) == DocEntriesOn(journals, email, date) + [entry]
    ensures forall d :: d != date ==>
      DocEntriesOn(Append(journals, email, date, entry), email, d) == DocEntriesOn(journals, email, d)
    ensures forall u :: u != email ==> DocEntries(Append(journals, email, date, entry), u) == DocEntries(journals, u)
  {
    var r := Append(journals, email, date, entry);
    if email in journals {
      AddPreservesUniqueDates(journals[email], date, entry);
      AddAddsExactlyOne(journals[email], date, entry);
      AddRefinesDateView(journals[email], date, entry, date);
      forall d | d != date
        ensures DocEntriesOn(r, email, d) == DocEntriesOn(journals, email, d)
      {
        AddRefinesDateView(journals[email], date, entry, d);
      }
    } else {
      var doc := [Bucket(date, [entry])];
      assert doc[1..] == [];
      assert AllEntries(doc) == multiset{entry};
      assert FindBucket(doc, date) == Some(0);
      forall d | d != date
        ensures DocEntriesOn(r, email, d) == []
      {
        assert !HasDate(doc, d);
      }
    }
  }
}
