/** The feedback list screen: every snapshot of the user's feedback documents
    is mapped to display records, sorted newest first, and replaces the list. */
module FeedbackList {
  import opened Wrappers
  import opened Navigation

  /** The `createdAt` field as read from a document: either a timestamp (in
      milliseconds since the epoch) or something without `toDate` — absent,
      or null while the server timestamp of a local write is pending. */
  datatype CreatedAt = NoTimestamp | Stamp(millis: int)

  /** A document of the snapshot: its id and the fields the screen reads. */
  datatype RawDoc = RawDoc(id: string, name: string, imageUrl: Option<string>,
                           rating: int, comment: string, createdAt: CreatedAt)

  /** A display record; `date` is in milliseconds since the epoch. */
  datatype Feedback = Feedback(id: string, name: string, imageUrl: Option<string>,
                               rating: int, comment: string, date: int)

  /** The milliseconds of a `createdAt`, falling back to the epoch. */
  function DateOf(c: CreatedAt): int
  {
    match c
    case Stamp(ms) => ms
    case NoTimestamp => 0
  }

  function Normalize(doc: RawDoc): Feedback
  {
    Feedback(doc.id, doc.name, doc.imageUrl, doc.rating, doc.comment, DateOf(doc.createdAt))
  }

  /** The snapshot's documents mapped one to one, in snapshot order. */
  function MapDocs(docs: seq<RawDoc>): (fs: seq<Feedback>)
    ensures |fs| == |docs|
    ensures forall i :: 0 <= i < |docs| ==> fs[i] == Normalize(docs[i])
  {
    seq(|docs|, i requires 0 <= i < |docs| => Normalize(docs[i]))
  }

  /** The display record carries the document's id and copies its fields;
      a document without a usable `createdAt` is dated at the epoch. */
  lemma NormalizeKeepsFields(doc: RawDoc)
    ensures Normalize(doc).id == doc.id && Normalize(doc).name == doc.name
    ensures Normalize(doc).imageUrl == doc.imageUrl && Normalize(doc).rating == doc.rating
    ensures Normalize(doc).comment == doc.comment
    ensures doc.createdAt.NoTimestamp? ==> Normalize(doc).date == 0
    ensures doc.createdAt.Stamp? ==> Normalize(doc).date == doc.createdAt.millis
  {
  }

  // ---- ordering ----

  /** Newest first: dates never increase along the list. */
  ghost predicate NewestFirstOrder(s: seq<Feedback>)
  {
    forall i, j :: 0 <= i < j < |s| ==> s[i].date >= s[j].date
  }

  /** The records of `s` dated `d`, in the order they have in `s`. */
  function WithDate(s: seq<Feedback>, d: int): seq<Feedback>
  {
    if s == [] then []
    else (if s[0].date == d then [s[0]] else []) + WithDate(s[1..], d)
  }

  /** Inserts `x` before the first record that is not newer than it. */
  function Insert(x: Feedback, s: seq<Feedback>): seq<Feedback>
  {
    if s == [] then [x]
    else if x.date >= s[0].date then [x] + s
    else [s[0]] + Insert(x, s[1..])
  }

  /** The comparator `(a, b) => b.date - a.date` under a stable sort. */
  function SortNewestFirst(s: seq<Feedback>): seq<Feedback>
  {
    if s == [] then [] else Insert(s[0], SortNewestFirst(s[1..]))
  }

  /** What a snapshot turns into: mapped, then sorted newest first. */
  function NewestFirst(docs: seq<RawDoc>): seq<Feedback>
  {
    SortNewestFirst(MapDocs(docs))
  }

  lemma {:induction false} InsertPermutes(x: Feedback, s: seq<Feedback>)
    ensures multiset(Insert(x, s)) == multiset(s) + multiset{x}
  {
    if s != [] && x.date < s[0].date {
      InsertPermutes(x, s[1..]);
      assert s == [s[0]] + s[1..];
    }
  }

  /** A record placed in front of a newest-first list that has nothing newer. */
  lemma PrependKeepsOrder(h: Feedback, t: seq<Feedback>)
    requires NewestFirstOrder(t)
    requires forall k :: 0 <= k < |t| ==> t[k].date <= h.date
    ensures NewestFirstOrder([h] + t)
  {
  }

  lemma {:induction false} InsertKeepsOrder(x: Feedback, s: seq<Feedback>)
    requires NewestFirstOrder(s)
    ensures NewestFirstOrder(Insert(x, s))
  {
    if s != [] && x.date < s[0].date {
      var rest := Insert(x, s[1..]);
      InsertKeepsOrder(x, s[1..]);
      InsertPermutes(x, s[1..]);
      forall k | 0 <= k < |rest| ensures rest[k].date <= s[0].date {
        assert rest[k] in multiset(rest);
        assert rest[k] == x || rest[k] in multiset(s[1..]);
      }
      PrependKeepsOrder(s[0], rest);
    } else if s != [] {
      PrependKeepsOrder(x, s);
    }
  }

  lemma {:induction false} InsertWithDate(x: Feedback, s: seq<Feedback>, d: int)
    ensures WithDate(Insert(x, s), d) == (if x.date == d then [x] else []) + WithDate(s, d)
  {
    if s == [] {
      assert WithDate([x], d) == (if x.date == d then [x] else []) + WithDate([], d);
    } else if x.date >= s[0].date {
      assert ([x] + s)[1..] == s;
    } else {
      InsertWithDate(x, s[1..], d);
      assert ([s[0]] + Insert(x, s[1..]))[1..] == Insert(x, s[1..]);
    }
  }

  /** The sort puts the records newest first and loses or adds none. */
  lemma {:induction false} SortIsOrderedPermutation(s: seq<Feedback>)
    ensures NewestFirstOrder(SortNewestFirst(s))
    ensures multiset(SortNewestFirst(s)) == multiset(s)
  {
    if s != [] {
      SortIsOrderedPermutation(s[1..]);
      InsertPermutes(s[0], SortNewestFirst(s[1..]));
      InsertKeepsOrder(s[0], SortNewestFirst(s[1..]));
      assert s == [s[0]] + s[1..];
    }
  }

  /** The sort is stable: records with the same date keep their snapshot order
      (there is no tie-break on the id). */
  lemma {:induction false} SortIsStable(s: seq<Feedback>, d: int)
    ensures WithDate(SortNewestFirst(s), d) == WithDate(s, d)
  {
    if s != [] {
      SortIsStable(s[1..], d);
      InsertWithDate(s[0], SortNewestFirst(s[1..]), d);
    }
  }

  lemma {:induction false} WithDateMember(s: seq<Feedback>, d: int, x: Feedback)
    requires x in WithDate(s, d)
    ensures x in s && x.date == d
  {
    if s != [] {
      if s[0].date == d && x == s[0] {
      } else {
        WithDateMember(s[1..], d, x);
      }
    }
  }

  /** The first record of a list, and the ones after it with its date. */
  lemma WithDateOfHead(s: seq<Feedback>)
    requires s != []
    ensures WithDate(s, s[0].date) == [s[0]] + WithDate(s[1..], s[0].date)
  {
  }

  /** Two newest-first lists with the same records per date start alike. */
  lemma {:induction false} SameHead(a: seq<Feedback>, b: seq<Feedback>)
    requires a != [] && b != []
    requires NewestFirstOrder(a) && NewestFirstOrder(b)
    requires WithDate(a, a[0].date) == WithDate(b, a[0].date)
    requires WithDate(a, b[0].date) == WithDate(b, b[0].date)
    ensures a[0] == b[0]
  {
    var da, db := a[0].date, b[0].date;
    WithDateOfHead(a);
    WithDateMember(b, da, WithDate(b, da)[0]);
    assert db >= da;
    WithDateOfHead(b);
    WithDateMember(a, db, WithDate(a, db)[0]);
    assert da >= db;
  }

  /** Dropping a common first record keeps the per-date lists equal. */
  lemma SameTails(a: seq<Feedback>, b: seq<Feedback>, d: int)
    requires a != [] && b != [] && a[0] == b[0]
    requires WithDate(a, d) == WithDate(b, d)
    ensures WithDate(a[1..], d) == WithDate(b[1..], d)
  {
    var h := if a[0].date == d then [a[0]] else [];
    assert WithDate(a, d) == h + WithDate(a[1..], d);
    assert WithDate(b, d) == h + WithDate(b[1..], d);
    assert WithDate(a[1..], d) == (h + WithDate(a[1..], d))[|h|..];
    assert WithDate(b[1..], d) == (h + WithDate(b[1..], d))[|h|..];
  }

  /** Newest-first order plus per-date order pins a list down: any stable
      newest-first sort of the same records gives the same list, whatever
      algorithm the engine uses. */
  lemma {:induction false} StableOrderIsUnique(a: seq<Feedback>, b: seq<Feedback>)
    requires NewestFirstOrder(a) && NewestFirstOrder(b)
    requires forall d :: WithDate(a, d) == WithDate(b, d)
    ensures a == b
    decreases |a| + |b|
  {
    if a != [] {
      WithDateOfHead(a);
      assert WithDate(b, a[0].date) != [];
    }
    if b != [] {
      WithDateOfHead(b);
      assert WithDate(a, b[0].date) != [];
    }
    if a != [] && b != [] {
      SameHead(a, b);
      forall d ensures WithDate(a[1..], d) == WithDate(b[1..], d) {
        SameTails(a, b, d);
      }
      StableOrderIsUnique(a[1..], b[1..]);
      assert a == [a[0]] + a[1..];
      assert b == [b[0]] + b[1..];
    }
  }

  // ---- the properties of a published list ----

  /** One entry per document, none dropped or added, newest first. */
  lemma NewestFirstIsSortedPermutation(docs: seq<RawDoc>)
    ensures |NewestFirst(docs)| == |docs|
    ensures multiset(NewestFirst(docs)) == multiset(MapDocs(docs))
    ensures NewestFirstOrder(NewestFirst(docs))
  {
    SortIsOrderedPermutation(MapDocs(docs));
    assert |multiset(NewestFirst(docs))| == |multiset(MapDocs(docs))|;
  }

  /** Every entry is the normalisation of some document of the snapshot. */
  lemma EntriesComeFromDocs(docs: seq<RawDoc>, k: nat)
    requires k < |NewestFirst(docs)|
    ensures exists i :: 0 <= i < |docs| && NewestFirst(docs)[k] == Normalize(docs[i])
  {
    NewestFirstIsSortedPermutation(docs);
    var f := NewestFirst(docs)[k];
    assert f in multiset(MapDocs(docs));
    var i :| 0 <= i < |docs| && MapDocs(docs)[i] == f;
  }

  /** Documents with the same date appear in snapshot order. */
  lemma NewestFirstKeepsTies(docs: seq<RawDoc>, d: int)
    ensures WithDate(NewestFirst(docs), d) == WithDate(MapDocs(docs), d)
  {
    SortIsStable(MapDocs(docs), d);
  }

  /** Any stable newest-first sort of the mapped snapshot equals NewestFirst. */
  lemma NewestFirstIsTheStableSort(docs: seq<RawDoc>, r: seq<Feedback>)
    requires NewestFirstOrder(r)
    requires forall d :: WithDate(r, d) == WithDate(MapDocs(docs), d)
    ensures r == NewestFirst(docs)
  {
    NewestFirstIsSortedPermutation(docs);
    forall d ensures WithDate(r, d) == WithDate(NewestFirst(docs), d) {
      NewestFirstKeepsTies(docs, d);
    }
    StableOrderIsUnique(r, NewestFirst(docs));
  }

  /** A record still waiting for its server timestamp (dated at the epoch)
      comes after every record with a positive timestamp. */
  lemma PendingSortsAfterStamped(docs: seq<RawDoc>, i: nat, j: nat)
    requires i < |NewestFirst(docs)| && j < |NewestFirst(docs)|
    requires NewestFirst(docs)[i].date > 0 && NewestFirst(docs)[j].date == 0
    ensures i < j
  {
    NewestFirstIsSortedPermutation(docs);
  }

  // ---- the screen ----

  /** The mounted list screen: its `feedbacks` state and whether its snapshot
      listener is still registered. */
  class FeedbackListScreen {
    var feedbacks: seq<Feedback>
    var listening: bool

    /** Mounting starts with an empty list and registers the listener. */
    constructor Mount()
      ensures feedbacks == [] && listening
    {
      feedbacks := [];
      listening := true;
    }

    /** A snapshot replaces the whole list while the listener is registered;
        after cleanup the store delivers nothing, so the list stays. */
    method OnSnapshot(docs: seq<RawDoc>)
      modifies this
      ensures listening == old(listening)
      ensures old(listening) ==> feedbacks == NewestFirst(docs)
      ensures !old(listening) ==> feedbacks == old(feedbacks)
    {
      if listening {
        feedbacks := NewestFirst(docs);
      }
    }

    /** The effect's cleanup: unsubscribes the listener. */
    method Cleanup()
      modifies this
      ensures !listening && feedbacks == old(feedbacks)
    {
      listening := false;
    }

    /** "New feedback" pushes the form; the list stays mounted and listening. */
    method NewFeedback() returns (nav: Route)
      ensures Some(nav) == Step(List, OpenForm)
    {
      nav := Form;
    }

    /** "Sign out": once sign-out resolves the screen is replaced by the login
        screen, which unmounts it; a failed sign-out changes nothing. */
    method SignOut(signOutOk: bool) returns (nav: Option<Route>)
      modifies this
      ensures feedbacks == old(feedbacks)
      ensures signOutOk ==> nav == Step(List, SignedOut) && !listening
      ensures !signOutOk ==> nav == None && listening == old(listening)
    {
      if signOutOk {
        nav := Some(Login);
        Cleanup();
      } else {
        nav := None;
      }
    }
  }

  /** After sign-out no snapshot changes the list: it keeps the last one
      published before the listener was removed. */
  method SnapshotAfterSignOut(before: seq<RawDoc>, after: seq<RawDoc>) returns (shown: seq<Feedback>, nav: Option<Route>)
    ensures shown == NewestFirst(before)
    ensures nav == Step(List, SignedOut)
  {
    var screen := new FeedbackListScreen.Mount();
    screen.OnSnapshot(before);
    nav := screen.SignOut(true);
    screen.OnSnapshot(after);
    shown := screen.feedbacks;
  }
}
