/** Counting the latest outcome per hypothesis from an audit ledger in any order. */
module OutcomeFold {

  datatype Outcome = Passed | Rejected | Inconclusive

  /** A qualifying audit event: of the run and family asked about, with one of the three outcomes. */
  datatype Event = Event(subject: nat, at: int, id: nat, outcome: Outcome)

  type Latest = map<nat, Outcome>

  datatype Counts = Counts(supported: nat, rejected: nat, inconclusive: nat)

  // ------------------------------------------------------------------ sort and overwrite

  predicate Before(a: Event, b: Event) {
    a.at < b.at || (a.at == b.at && a.id <= b.id)
  }

  predicate Ordered(events: seq<Event>) {
    forall i, j :: 0 <= i < j < |events| ==> Before(events[i], events[j])
  }

  function Insert(e: Event, sorted: seq<Event>): seq<Event> {
    if sorted == [] || Before(e, sorted[0]) then [e] + sorted else [sorted[0]] + Insert(e, sorted[1..])
  }

  function Sort(events: seq<Event>): seq<Event> {
    if events == [] then [] else Insert(events[0], Sort(events[1..]))
  }

  /** Later events of a subject overwrite earlier ones. */
  function Overwrite(events: seq<Event>): Latest {
    if events == [] then map[]
    else
      var last := events[|events| - 1];
      Overwrite(events[..|events| - 1])[last.subject := last.outcome]
  }

  function SubjectsWith(latest: Latest, outcome: Outcome): set<nat> {
    set s | s in latest && latest[s] == outcome
  }

  function CountLatest(latest: Latest): Counts {
    Counts(|SubjectsWith(latest, Passed)|, |SubjectsWith(latest, Rejected)|, |SubjectsWith(latest, Inconclusive)|)
  }

  method FamilyOutcomeCounts(events: seq<Event>) returns (counts: Counts)
    ensures counts == CountLatest(Overwrite(Sort(events)))
  {
    var sorted := Sort(events);
    var latest: Latest := map[];
    for i := 0 to |sorted|
      invariant latest == Overwrite(sorted[..i])
    {
      assert sorted[..i + 1][..i] == sorted[..i];
      latest := latest[sorted[i].subject := sorted[i].outcome];
    }
    assert sorted[..|sorted|] == sorted;
    counts := CountLatest(latest);
  }

  // ------------------------------------------------------------------ what the fold means

  /** `e` is the newest event of its subject: no other of that subject has a larger (time, id). */
  ghost predicate Newest(events: seq<Event>, e: Event) {
    e in events && forall f :: f in events && f.subject == e.subject ==> f.at < e.at || (f.at == e.at && f.id <= e.id)
  }

  /** Audit ids are unique. */
  ghost predicate DistinctIds(events: seq<Event>) {
    forall i, j :: 0 <= i < j < |events| ==> events[i].id != events[j].id
  }

  lemma {:induction false} InsertKeeps(e: Event, sorted: seq<Event>)
    requires Ordered(sorted)
    ensures Ordered(Insert(e, sorted)) && multiset(Insert(e, sorted)) == multiset(sorted) + multiset{e}
  {
    if sorted != [] && !Before(e, sorted[0]) {
      var rest := Insert(e, sorted[1..]);
      InsertKeeps(e, sorted[1..]);
      assert sorted == [sorted[0]] + sorted[1..];
      forall j | 0 <= j < |rest| ensures Before(sorted[0], rest[j]) {
        assert rest[j] in multiset(rest);
        assert rest[j] == e || rest[j] in multiset(sorted[1..]);
      }
    }
  }

  lemma {:induction false} SortKeeps(events: seq<Event>)
    ensures Ordered(Sort(events)) && multiset(Sort(events)) == multiset(events)
  {
    if events != [] {
      SortKeeps(events[1..]);
      InsertKeeps(events[0], Sort(events[1..]));
      assert events == [events[0]] + events[1..];
    }
  }

  lemma {:induction false} OverwriteHasSubjects(sorted: seq<Event>, subject: nat)
    ensures subject in Overwrite(sorted) <==> exists i :: 0 <= i < |sorted| && sorted[i].subject == subject
  {
    if sorted != [] {
      var front := sorted[..|sorted| - 1];
      OverwriteHasSubjects(front, subject);
      assert forall i :: 0 <= i < |front| ==> front[i] == sorted[i];
      assert sorted[|sorted| - 1].subject == subject ==> subject in Overwrite(sorted);
    }
  }

  /** In an ordered sequence the last event is newest, and an older one stays newest of its subject. */
  lemma NewestInLonger(front: seq<Event>, last: Event, e: Event)
    requires Ordered(front + [last])
    ensures Newest(front + [last], last)
    ensures Newest(front, e) && e.subject != last.subject ==> Newest(front + [last], e)
  {
    var all := front + [last];
    forall f | f in all ensures f == last || (f in front && Before(f, last)) {
      if f != last {
        var i :| 0 <= i < |all| && all[i] == f;
        assert Before(all[i], all[|front|]);
      }
    }
  }

  lemma {:induction false} OverwriteKeepsNewest(sorted: seq<Event>, subject: nat)
    requires Ordered(sorted) && subject in Overwrite(sorted)
    ensures exists e :: Newest(sorted, e) && e.subject == subject && Overwrite(sorted)[subject] == e.outcome
  {
    var front, last := sorted[..|sorted| - 1], sorted[|sorted| - 1];
    assert sorted == front + [last];
    if last.subject == subject {
      NewestInLonger(front, last, last);
    } else {
      OverwriteKeepsNewest(front, subject);
      var e :| Newest(front, e) && e.subject == subject && Overwrite(front)[subject] == e.outcome;
      NewestInLonger(front, last, e);
    }
  }

  /** The fold maps exactly the subjects that have events, each to the outcome of its newest event. */
  lemma FoldIsNewest(events: seq<Event>, subject: nat)
    ensures
      var latest := Overwrite(Sort(events));
      && (subject in latest <==> exists e :: e in events && e.subject == subject)
      && (subject in latest ==> exists e :: Newest(events, e) && e.subject == subject && latest[subject] == e.outcome)
  {
    var sorted := Sort(events);
    SortKeeps(events);
    assert forall e :: e in sorted <==> e in events by {
      assert forall e :: e in sorted <==> e in multiset(sorted);
      assert forall e :: e in events <==> e in multiset(events);
    }
    OverwriteHasSubjects(sorted, subject);
    if exists e :: e in events && e.subject == subject {
      var e :| e in events && e.subject == subject;
      assert e in sorted;
      var i :| 0 <= i < |sorted| && sorted[i] == e;
      assert sorted[i].subject == subject;
    }
    if subject in Overwrite(sorted) {
      OverwriteKeepsNewest(sorted, subject);
      var e :| Newest(sorted, e) && e.subject == subject && Overwrite(sorted)[subject] == e.outcome;
      assert Newest(events, e);
    }
  }

  lemma NewestIsUnique(events: seq<Event>, e: Event, f: Event)
    requires DistinctIds(events) && Newest(events, e) && Newest(events, f) && e.subject == f.subject
    ensures e == f
  {
    var i :| 0 <= i < |events| && events[i] == e;
    var j :| 0 <= j < |events| && events[j] == f;
    assert Before(e, f) && Before(f, e);
  }

  /** The order the ledger lists its events in does not matter. */
  lemma CountsIgnoreOrder(events: seq<Event>, other: seq<Event>)
    requires multiset(events) == multiset(other) && DistinctIds(events)
    ensures Overwrite(Sort(events)) == Overwrite(Sort(other))
  {
    var a, b := Overwrite(Sort(events)), Overwrite(Sort(other));
    assert forall e :: e in events <==> e in other by {
      assert forall e :: e in events <==> e in multiset(events);
      assert forall e :: e in other <==> e in multiset(other);
    }
    forall s ensures (s in a <==> s in b) && (s in a ==> a[s] == b[s]) {
      FoldIsNewest(events, s);
      FoldIsNewest(other, s);
      if s in a && s in b {
        var e :| Newest(events, e) && e.subject == s && a[s] == e.outcome;
        var f :| Newest(other, f) && f.subject == s && b[s] == f.outcome;
        assert Newest(events, f);
        NewestIsUnique(events, e, f);
      }
    }
  }

  function Subjects(events: seq<Event>): (subjects: set<nat>)
    ensures forall s :: s in subjects <==> exists e :: e in events && e.subject == s
  {
    set e | e in events :: e.subject
  }

  /** The three counts add up to the number of distinct subjects. */
  lemma CountsCoverSubjects(events: seq<Event>)
    ensures
      var counts := CountLatest(Overwrite(Sort(events)));
      counts.supported + counts.rejected + counts.inconclusive == |Subjects(events)|
  {
    var latest := Overwrite(Sort(events));
    var passed, rejected, inconclusive :=
      SubjectsWith(latest, Passed), SubjectsWith(latest, Rejected), SubjectsWith(latest, Inconclusive);
    forall s ensures s in Subjects(events) <==> s in passed + rejected + inconclusive {
      FoldIsNewest(events, s);
    }
    assert Subjects(events) == passed + rejected + inconclusive;
    assert passed !! rejected && passed + rejected !! inconclusive;
  }

  /** Subjects whose newest event has this outcome. */
  ghost function NewestWith(events: seq<Event>, outcome: Outcome): set<nat> {
    set e | e in events && Newest(events, e) && e.outcome == outcome :: e.subject
  }

  lemma LatestIsNewest(events: seq<Event>, outcome: Outcome)
    requires DistinctIds(events)
    ensures SubjectsWith(Overwrite(Sort(events)), outcome) == NewestWith(events, outcome)
  {
    var latest := Overwrite(Sort(events));
    forall s ensures s in SubjectsWith(latest, outcome) <==> s in NewestWith(events, outcome) {
      FoldIsNewest(events, s);
      if s in latest {
        var e :| Newest(events, e) && e.subject == s && latest[s] == e.outcome;
        forall f | f in events && Newest(events, f) && f.subject == s ensures f == e {
          NewestIsUnique(events, e, f);
        }
      }
    }
  }

  /** Each count is the number of subjects whose newest event has that outcome. */
  lemma CountsAreOfNewest(events: seq<Event>)
    requires DistinctIds(events)
    ensures
      var counts := CountLatest(Overwrite(Sort(events)));
      && counts.supported == |NewestWith(events, Passed)| && counts.rejected == |NewestWith(events, Rejected)|
      && counts.inconclusive == |NewestWith(events, Inconclusive)|
  {
    LatestIsNewest(events, Passed);
    LatestIsNewest(events, Rejected);
    LatestIsNewest(events, Inconclusive);
  }
}
