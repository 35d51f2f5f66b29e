/**
 Billing runs that may overlap and stop anywhere: finding what is due, creating the payment and marking the reports are
 three separate actions, with nothing that keeps two runs from working on the same reports.
 */
module BillingRuns {
  import opened Sums
  import opened Billing

  /** What a run has in hand: reports it found due, and then a payment it created for them. */
  datatype Work =
    | Found(key: Key, due: seq<Report>)
    | Paid(key: Key, due: seq<Report>)

  datatype Office = Office(books: Books, work: map<string, Work>)

  datatype Event =
    | Digest(report: Report)
    | NextDay
    | Find(runner: string, key: Key)
    | Pay(runner: string)
    | Marks(runner: string)
    | Stop(runner: string)

  function WithBill(b: Books, w: Work): Books {
    b.(bills := b.bills + [Bill(w.key, Amount(w.due), Ids(w.due))])
  }

  /** Past reports are frozen: digestion only adds reports, unbilled ones, for the current day or later. */
  function Apply(o: Office, e: Event): Office {
    var b := o.books;
    match e
    case Digest(r) =>
      if r.day < b.today || r.billed || HasReport(b.reports, r.id) then o
      else o.(books := b.(reports := b.reports + [r]))
    case NextDay => o.(books := b.(today := b.today + 1))
    case Find(c, key) => if c in o.work then o else o.(work := o.work[c := Found(key, DueOf(b, key))])
    case Pay(c) =>
      if c !in o.work || !o.work[c].Found? then o
      else
        var w := o.work[c];
        if Amount(w.due) <= 0 then o.(work := o.work - {c})
        else Office(WithBill(b, w), o.work[c := Paid(w.key, w.due)])
    case Marks(c) =>
      if c !in o.work || !o.work[c].Paid? then o
      else Office(b.(reports := Mark(b.reports, Ids(o.work[c].due))), o.work - {c})
    case Stop(c) => o.(work := o.work - {c})
  }

  const NOBODY: Office := Office(NO_BOOKS, map[])

  function History(events: seq<Event>): Office {
    if events == [] then NOBODY else Apply(History(events[..|events| - 1]), events[|events| - 1])
  }

  lemma HistorySnoc(events: seq<Event>, e: Event)
    ensures History(events + [e]) == Apply(History(events), e)
  {
    assert (events + [e])[..|events|] == events;
  }

  // ---- What every history keeps

  predicate HasKeyed(reports: seq<Report>, id: string, key: Key) {
    exists k :: 0 <= k < |reports| && reports[k].id == id && KeyOf(reports[k]) == key
  }

  /** What the reports with these identities add up to. */
  function AmountWithin(reports: seq<Report>, ids: seq<string>): int {
    if reports == [] then 0
    else
      var last := reports[|reports| - 1];
      AmountWithin(reports[..|reports| - 1], ids) + if last.id in ids then last.amount else 0
  }

  /** What a run found are stored reports of its key, with their amounts. */
  predicate SoundWork(reports: seq<Report>, w: Work) {
    && (forall id :: id in Ids(w.due) ==> HasKeyed(reports, id, w.key))
    && AmountWithin(reports, Ids(w.due)) == Amount(w.due)
  }

  predicate OnlyKnown(b: Books) {
    forall k, id :: 0 <= k < |b.bills| && id in b.bills[k].covers ==> HasReport(b.reports, id)
  }

  predicate OfficeInv(o: Office) {
    && DistinctReports(o.books.reports) && OnlyKnown(o.books)
    && forall c :: c in o.work ==> SoundWork(o.books.reports, o.work[c])
  }

  /** The same reports, but for their marks. */
  predicate SameButMarks(a: seq<Report>, b: seq<Report>) {
    |a| == |b| && forall k :: 0 <= k < |a| ==> b[k] == a[k].(billed := b[k].billed)
  }

  lemma AmountOfDueSnoc(reports: seq<Report>, key: Key, today: nat)
    requires reports != []
    ensures var n := |reports| - 1;
      Amount(Due(reports, key, today))
      == Amount(Due(reports[..n], key, today)) + if IsDue(reports[n], key, today) then reports[n].amount else 0
  {
    var n := |reports| - 1;
    var due := Due(reports[..n], key, today);
    if IsDue(reports[n], key, today) {
      AmountSnoc(due, reports[n]);
    } else {
      assert Due(reports, key, today) == due + [] == due;
    }
  }

  lemma {:induction false} AmountOfDue(reports: seq<Report>, ids: seq<string>, key: Key, today: nat)
    requires forall k :: 0 <= k < |reports| ==> (reports[k].id in ids <==> IsDue(reports[k], key, today))
    ensures AmountWithin(reports, ids) == Amount(Due(reports, key, today))
  {
    if reports != [] {
      var n := |reports| - 1;
      AmountOfDue(reports[..n], ids, key, today);
      AmountOfDueSnoc(reports, key, today);
    }
  }

  lemma FoundIsSound(b: Books, key: Key)
    requires DistinctReports(b.reports)
    ensures SoundWork(b.reports, Found(key, DueOf(b, key)))
    ensures forall k :: 0 <= k < |b.reports| && b.reports[k].id in Ids(DueOf(b, key)) ==> !b.reports[k].billed
  {
    var ids := Ids(DueOf(b, key));
    forall id | id in ids ensures HasKeyed(b.reports, id, key) { DueHas(b.reports, key, b.today, id); }
    forall k | 0 <= k < |b.reports| ensures b.reports[k].id in ids <==> IsDue(b.reports[k], key, b.today) {
      DueOnly(b, key, k);
    }
    AmountOfDue(b.reports, ids, key, b.today);
  }

  lemma DueOnly(b: Books, key: Key, k: nat)
    requires DistinctReports(b.reports) && k < |b.reports|
    ensures b.reports[k].id in Ids(DueOf(b, key)) <==> IsDue(b.reports[k], key, b.today)
  {
    DueHas(b.reports, key, b.today, b.reports[k].id);
    if j :| 0 <= j < |b.reports| && b.reports[j].id == b.reports[k].id && IsDue(b.reports[j], key, b.today) {
      assert Ids(b.reports)[j] == Ids(b.reports)[k];
      assert j == k;
    }
  }

  lemma {:induction false} SameAmounts(a: seq<Report>, b: seq<Report>, ids: seq<string>)
    requires SameButMarks(a, b)
    ensures AmountWithin(a, ids) == AmountWithin(b, ids)
  {
    if a != [] { SameAmounts(a[..|a| - 1], b[..|b| - 1], ids); }
  }

  lemma MarksKeepWork(a: seq<Report>, b: seq<Report>, w: Work)
    requires SameButMarks(a, b) && SoundWork(a, w)
    ensures SoundWork(b, w)
  {
    SameAmounts(a, b, Ids(w.due));
    forall id | id in Ids(w.due) ensures HasKeyed(b, id, w.key) {
      var k :| 0 <= k < |a| && a[k].id == id && KeyOf(a[k]) == w.key;
      assert b[k].id == id && KeyOf(b[k]) == w.key;
    }
  }

  lemma DigestKeepsWork(reports: seq<Report>, r: Report, w: Work)
    requires SoundWork(reports, w) && !HasReport(reports, r.id)
    ensures SoundWork(reports + [r], w)
  {
    assert (reports + [r])[..|reports|] == reports;
    forall id | id in Ids(w.due) ensures HasKeyed(reports + [r], id, w.key) && id != r.id {
      var k :| 0 <= k < |reports| && reports[k].id == id && KeyOf(reports[k]) == w.key;
      assert (reports + [r])[k] == reports[k];
      assert HasReport(reports, id);
    }
  }

  lemma DigestKeepsOffice(o: Office, r: Report)
    requires OfficeInv(o)
    ensures OfficeInv(Apply(o, Digest(r)))
  {
    var t, reports := Apply(o, Digest(r)), o.books.reports;
    if t != o {
      var ids := Ids(reports + [r]);
      forall i, j | 0 <= i < j < |ids| ensures ids[i] != ids[j] {
        if j < |reports| { assert Ids(reports)[i] != Ids(reports)[j]; } else { assert reports[i].id != r.id; }
      }
      forall id | HasReport(reports, id) ensures HasReport(reports + [r], id) {
        var k :| 0 <= k < |reports| && reports[k].id == id;
        assert (reports + [r])[k].id == id;
      }
      forall c | c in t.work ensures SoundWork(t.books.reports, t.work[c]) { DigestKeepsWork(reports, r, o.work[c]); }
    }
  }

  lemma PayKeepsOffice(o: Office, c: string)
    requires OfficeInv(o)
    ensures OfficeInv(Apply(o, Pay(c)))
  {
    if c in o.work && o.work[c].Found? {
      forall id | id in Ids(o.work[c].due) ensures HasReport(o.books.reports, id) {
        assert HasKeyed(o.books.reports, id, o.work[c].key);
      }
    }
  }

  lemma MarksKeepOffice(o: Office, c: string)
    requires OfficeInv(o)
    ensures OfficeInv(Apply(o, Marks(c)))
  {
    if c in o.work && o.work[c].Paid? {
      var t, a := Apply(o, Marks(c)), o.books.reports;
      assert Ids(t.books.reports) == Ids(a);
      forall id | HasReport(a, id) ensures HasReport(t.books.reports, id) {
        var k :| 0 <= k < |a| && a[k].id == id;
        assert t.books.reports[k].id == id;
      }
      forall d | d in t.work ensures SoundWork(t.books.reports, t.work[d]) {
        MarksKeepWork(a, t.books.reports, o.work[d]);
      }
    }
  }

  lemma ApplyKeepsOffice(o: Office, e: Event)
    requires OfficeInv(o)
    ensures OfficeInv(Apply(o, e))
  {
    match e
    case Digest(r) => DigestKeepsOffice(o, r);
    case NextDay =>
    case Find(c, key) => FoundIsSound(o.books, key);
    case Pay(c) => PayKeepsOffice(o, c);
    case Marks(c) => MarksKeepOffice(o, c);
    case Stop(c) =>
  }

  lemma {:induction false} HistoryKeepsOffice(events: seq<Event>)
    ensures OfficeInv(History(events))
  {
    if events != [] {
      HistoryKeepsOffice(events[..|events| - 1]);
      ApplyKeepsOffice(History(events[..|events| - 1]), events[|events| - 1]);
    }
  }

  // ---- Every payment of a report is accounted for

  /** How many payments were made from a report. */
  function Covers(bills: seq<Bill>, id: string): nat {
    if bills == [] then 0 else Covers(bills[..|bills| - 1], id) + if id in bills[|bills| - 1].covers then 1 else 0
  }

  predicate IsMarked(reports: seq<Report>, id: string) {
    exists k :: 0 <= k < |reports| && reports[k].id == id && reports[k].billed
  }

  function Marked(reports: seq<Report>, id: string): nat { if IsMarked(reports, id) then 1 else 0 }

  /** The runs that have created a payment from a report and not marked it yet. */
  function UnderWay(work: map<string, Work>, id: string): set<string> {
    set c | c in work && work[c].Paid? && id in Ids(work[c].due)
  }

  /** The event ends a payment's work without a fresh mark: the run stops, or the report was marked already. */
  function WastedNow(o: Office, e: Event, id: string): nat {
    match e
    case Stop(c) => if c in UnderWay(o.work, id) then 1 else 0
    case Marks(c) => if c in UnderWay(o.work, id) && IsMarked(o.books.reports, id) then 1 else 0
    case _ => 0
  }

  function Wasted(events: seq<Event>, id: string): nat {
    if events == [] then 0
    else
      var n := |events| - 1;
      Wasted(events[..n], id) + WastedNow(History(events[..n]), events[n], id)
  }

  function Balance(o: Office, id: string): int {
    Covers(o.books.bills, id) - Marked(o.books.reports, id) - |UnderWay(o.work, id)|
  }

  lemma DigestBalances(o: Office, r: Report, id: string)
    ensures Balance(Apply(o, Digest(r)), id) == Balance(o, id)
  {
    var reports := o.books.reports;
    if IsMarked(reports, id) {
      var k :| 0 <= k < |reports| && reports[k].id == id && reports[k].billed;
      assert (reports + [r])[k] == reports[k];
    }
    if !r.billed && IsMarked(reports + [r], id) {
      var k :| 0 <= k < |reports + [r]| && (reports + [r])[k].id == id && (reports + [r])[k].billed;
      assert reports[k].id == id;
    }
  }

  lemma FindBalances(o: Office, c: string, key: Key, id: string)
    ensures Balance(Apply(o, Find(c, key)), id) == Balance(o, id)
  {
    assert UnderWay(Apply(o, Find(c, key)).work, id) == UnderWay(o.work, id);
  }

  lemma CoversSnoc(bills: seq<Bill>, bill: Bill, id: string)
    ensures Covers(bills + [bill], id) == Covers(bills, id) + if id in bill.covers then 1 else 0
  {
    assert (bills + [bill])[..|bills|] == bills;
  }

  lemma UnderWayAfterPay(work: map<string, Work>, c: string, id: string)
    requires c in work && work[c].Found?
    ensures var w := work[c]; var at := UnderWay(work, id);
      && UnderWay(work - {c}, id) == at && c !in at
      && UnderWay(work[c := Paid(w.key, w.due)], id) == if id in Ids(w.due) then at + {c} else at
  {
  }

  lemma PayBalances(o: Office, c: string, id: string)
    ensures Balance(Apply(o, Pay(c)), id) == Balance(o, id)
  {
    if c in o.work && o.work[c].Found? {
      var w := o.work[c];
      UnderWayAfterPay(o.work, c, id);
      CoversSnoc(o.books.bills, Bill(w.key, Amount(w.due), Ids(w.due)), id);
    }
  }

  lemma StopBalances(o: Office, c: string, id: string)
    ensures Balance(Apply(o, Stop(c)), id) == Balance(o, id) + WastedNow(o, Stop(c), id)
  {
    RemovesOne(o.work, c, id);
  }

  lemma RemovesOne(work: map<string, Work>, c: string, id: string)
    ensures |UnderWay(work - {c}, id)| == |UnderWay(work, id)| - if c in UnderWay(work, id) then 1 else 0
  {
    assert UnderWay(work - {c}, id) == UnderWay(work, id) - {c};
  }

  lemma MarksBalances(o: Office, c: string, id: string)
    requires OfficeInv(o)
    ensures Balance(Apply(o, Marks(c)), id) == Balance(o, id) + WastedNow(o, Marks(c), id)
  {
    if c in o.work && o.work[c].Paid? {
      RemovesOne(o.work, c, id);
      MarkedAfter(o.books.reports, o.work[c], id);
    }
  }

  lemma MarkedAfter(reports: seq<Report>, w: Work, id: string)
    requires SoundWork(reports, w)
    ensures IsMarked(Mark(reports, Ids(w.due)), id) <==> IsMarked(reports, id) || id in Ids(w.due)
  {
    var marked := Mark(reports, Ids(w.due));
    if IsMarked(reports, id) {
      var k :| 0 <= k < |reports| && reports[k].id == id && reports[k].billed;
      assert marked[k].id == id && marked[k].billed;
    }
    if id in Ids(w.due) {
      assert HasKeyed(reports, id, w.key);
      var k :| 0 <= k < |reports| && reports[k].id == id && KeyOf(reports[k]) == w.key;
      assert marked[k].id == id && marked[k].billed;
    }
    if IsMarked(marked, id) && id !in Ids(w.due) {
      var k :| 0 <= k < |marked| && marked[k].id == id && marked[k].billed;
      assert reports[k].id == id && reports[k].billed;
    }
  }

  lemma ApplyBalances(o: Office, e: Event, id: string)
    requires OfficeInv(o)
    ensures Balance(Apply(o, e), id) == Balance(o, id) + WastedNow(o, e, id)
  {
    match e
    case Digest(r) => DigestBalances(o, r, id);
    case NextDay =>
    case Find(c, key) => FindBalances(o, c, key, id);
    case Pay(c) => PayBalances(o, c, id);
    case Marks(c) => MarksBalances(o, c, id);
    case Stop(c) => StopBalances(o, c, id);
  }

  /**
   After any history, however runs overlap and stop: the payments made from a report are its mark, the payments whose
   run stopped before marking it or marked it when it was marked already, and those whose run has not come to it yet.
   */
  lemma {:induction false} ReportConservation(events: seq<Event>, id: string)
    ensures var o := History(events);
      Covers(o.books.bills, id) == Marked(o.books.reports, id) + Wasted(events, id) + |UnderWay(o.work, id)|
  {
    if events != [] {
      var n := |events| - 1;
      ReportConservation(events[..n], id);
      HistoryKeepsOffice(events[..n]);
      ApplyBalances(History(events[..n]), events[n], id);
    } else {
      assert UnderWay(NOBODY.work, id) == {};
    }
  }

  /** Here a run stops after paying a report and before marking it, or marks it again. */
  predicate StraysAt(events: seq<Event>, n: nat, id: string) {
    n < |events| && WastedNow(History(events[..n]), events[n], id) > 0
  }

  ghost predicate Strays(events: seq<Event>, id: string) { exists n: nat :: StraysAt(events, n, id) }

  lemma PrefixStraysAt(events: seq<Event>, n: nat, m: nat, id: string)
    requires n < m <= |events|
    ensures StraysAt(events[..m], n, id) <==> StraysAt(events, n, id)
  {
    assert events[..m][..n] == events[..n];
  }

  lemma StraysSnoc(events: seq<Event>, id: string)
    requires events != []
    ensures Strays(events, id) <==> Strays(events[..|events| - 1], id) || StraysAt(events, |events| - 1, id)
  {
    var m := |events| - 1;
    if n: nat :| StraysAt(events, n, id) && n < m { PrefixStraysAt(events, n, m, id); }
    if n: nat :| StraysAt(events[..m], n, id) { PrefixStraysAt(events, n, m, id); }
  }

  lemma {:induction false} WastedIffStrays(events: seq<Event>, id: string)
    ensures Wasted(events, id) > 0 <==> Strays(events, id)
  {
    if events != [] {
      WastedIffStrays(events[..|events| - 1], id);
      StraysSnoc(events, id);
    }
  }

  /**
   A report has exactly the payment its mark says if and only if no run stopped between paying and marking it, none
   marked it a second time, and none is between the two now. It has at most one payment if and only if at most one of
   these and its mark applies, once.
   */
  lemma BilledOnceIff(events: seq<Event>, id: string)
    ensures var o := History(events);
      && (Covers(o.books.bills, id) == Marked(o.books.reports, id) <==>
            !Strays(events, id) && UnderWay(o.work, id) == {})
      && (Covers(o.books.bills, id) <= 1 <==>
            Marked(o.books.reports, id) + Wasted(events, id) + |UnderWay(o.work, id)| <= 1)
  {
    ReportConservation(events, id);
    WastedIffStrays(events, id);
  }

  // ---- Runs that neither stop nor overlap on a key

  /** Nobody starts on a key another run is still working on. */
  predicate Exclusive(events: seq<Event>, key: Key) {
    forall n :: 0 <= n < |events| && events[n].Find? && events[n].key == key ==>
      NobodyOn(History(events[..n]).work, key)
  }

  predicate NobodyOn(work: map<string, Work>, key: Key) {
    forall c :: c in work ==> work[c].key != key
  }

  /** Nobody stops between creating a payment of the key and marking its reports. */
  predicate NeverLost(events: seq<Event>, key: Key) {
    forall n :: 0 <= n < |events| && events[n].Stop? ==>
      var work := History(events[..n]).work;
      events[n].runner in work && work[events[n].runner].Paid? ==> work[events[n].runner].key != key
  }

  /** At most one run is on the key, and what it found is not marked yet. */
  predicate Undisturbed(o: Office, key: Key) {
    && (forall c, d :: c in o.work && d in o.work && o.work[c].key == key == o.work[d].key ==> c == d)
    && (forall c :: c in o.work && o.work[c].key == key ==> Unmarked(o.books.reports, Ids(o.work[c].due)))
  }

  predicate Unmarked(reports: seq<Report>, ids: seq<string>) {
    forall k :: 0 <= k < |reports| && reports[k].id in ids ==> !reports[k].billed
  }

  /** The report, if it exists yet, is one of this key. */
  predicate OfKey(reports: seq<Report>, id: string, key: Key) {
    forall k :: 0 <= k < |reports| && reports[k].id == id ==> KeyOf(reports[k]) == key
  }

  lemma WorkerIsOnKey(o: Office, c: string, id: string, key: Key)
    requires OfficeInv(o) && c in o.work && id in Ids(o.work[c].due) && OfKey(o.books.reports, id, key)
    ensures o.work[c].key == key
  {
    var k :| 0 <= k < |o.books.reports| && o.books.reports[k].id == id && KeyOf(o.books.reports[k]) == o.work[c].key;
  }

  /** What an event may do for the key to stay undisturbed. */
  predicate Allowed(o: Office, e: Event, key: Key) {
    && (e.Find? && e.key == key ==> NobodyOn(o.work, key))
    && (e.Stop? && e.runner in o.work && o.work[e.runner].Paid? ==> o.work[e.runner].key != key)
  }

  lemma NothingWasted(o: Office, e: Event, id: string, key: Key)
    requires OfficeInv(o) && Undisturbed(o, key) && Allowed(o, e, key) && OfKey(o.books.reports, id, key)
    ensures WastedNow(o, e, id) == 0
  {
    if (e.Stop? || e.Marks?) && e.runner in UnderWay(o.work, id) {
      WorkerIsOnKey(o, e.runner, id, key);
    }
  }

  lemma MarksKeepUndisturbed(o: Office, c: string, key: Key)
    requires OfficeInv(o) && Undisturbed(o, key) && c in o.work && o.work[c].Paid?
    ensures Undisturbed(Apply(o, Marks(c)), key)
  {
    var t := Apply(o, Marks(c));
    forall d, k | d in t.work && t.work[d].key == key && 0 <= k < |t.books.reports|
                  && t.books.reports[k].id in Ids(t.work[d].due)
      ensures !t.books.reports[k].billed
    {
      var r := o.books.reports[k];
      assert HasKeyed(o.books.reports, r.id, key);
      if r.id in Ids(o.work[c].due) {
        OneKeyOnly(o.books.reports, r.id, o.work[c].key, key);
      }
    }
  }

  lemma OneKeyOnly(reports: seq<Report>, id: string, a: Key, b: Key)
    requires DistinctReports(reports) && HasKeyed(reports, id, a) && HasKeyed(reports, id, b)
    ensures a == b
  {
    var i :| 0 <= i < |reports| && reports[i].id == id && KeyOf(reports[i]) == a;
    var j :| 0 <= j < |reports| && reports[j].id == id && KeyOf(reports[j]) == b;
    assert Ids(reports)[i] == Ids(reports)[j];
  }

  lemma ApplyKeepsUndisturbed(o: Office, e: Event, key: Key)
    requires OfficeInv(o) && Undisturbed(o, key) && Allowed(o, e, key)
    ensures Undisturbed(Apply(o, e), key)
  {
    match e
    case Digest(r) => DigestKeepsUndisturbed(o, r, key);
    case NextDay =>
    case Find(c, k) => FoundIsSound(o.books, k);
    case Pay(c) =>
    case Marks(c) => if c in o.work && o.work[c].Paid? { MarksKeepUndisturbed(o, c, key); }
    case Stop(c) =>
  }

  lemma DigestKeepsUndisturbed(o: Office, r: Report, key: Key)
    requires Undisturbed(o, key)
    ensures Undisturbed(Apply(o, Digest(r)), key)
  {
  }

  lemma {:induction false} HistoryKeepsUndisturbed(events: seq<Event>, key: Key)
    requires Exclusive(events, key) && NeverLost(events, key)
    ensures Undisturbed(History(events), key)
    ensures forall id :: OfKey(History(events).books.reports, id, key) ==> Wasted(events, id) == 0
  {
    if events != [] {
      var n := |events| - 1;
      var o, e := History(events[..n]), events[n];
      PrefixIsExclusive(events, n, key);
      HistoryKeepsUndisturbed(events[..n], key);
      HistoryKeepsOffice(events[..n]);
      ApplyKeepsUndisturbed(o, e, key);
      forall id | OfKey(History(events).books.reports, id, key) ensures Wasted(events, id) == 0 {
        StillOfKey(o, e, id, key);
        NothingWasted(o, e, id, key);
      }
    }
  }

  lemma StillOfKey(o: Office, e: Event, id: string, key: Key)
    requires OfKey(Apply(o, e).books.reports, id, key)
    ensures OfKey(o.books.reports, id, key)
  {
    var after := Apply(o, e).books.reports;
    forall k | 0 <= k < |o.books.reports| && o.books.reports[k].id == id ensures KeyOf(o.books.reports[k]) == key {
      assert after[k].id == id && KeyOf(after[k]) == KeyOf(o.books.reports[k]);
    }
  }

  lemma PrefixIsExclusive(events: seq<Event>, n: nat, key: Key)
    requires n <= |events| && Exclusive(events, key) && NeverLost(events, key)
    ensures Exclusive(events[..n], key) && NeverLost(events[..n], key)
    ensures n < |events| ==> Allowed(History(events[..n]), events[n], key)
  {
    assert forall k :: 0 <= k < n ==> events[..n][..k] == events[..k] && events[..n][k] == events[k];
  }

  /**
   If runs never overlap on a key and never stop between paying and marking, each report of the key has one payment if
   it is marked or its payment is under way, and none otherwise.
   */
  lemma SeparateRunsBillOnce(events: seq<Event>, key: Key, id: string)
    requires Exclusive(events, key) && NeverLost(events, key) && HasKeyed(History(events).books.reports, id, key)
    ensures var o := History(events);
      && Covers(o.books.bills, id) == Marked(o.books.reports, id) + |UnderWay(o.work, id)| <= 1
  {
    var o := History(events);
    HistoryKeepsOffice(events);
    HistoryKeepsUndisturbed(events, key);
    KeyedIsOfKey(o.books.reports, id, key);
    ReportConservation(events, id);
    AtMostOneUnderWay(o, id, key);
  }

  lemma KeyedIsOfKey(reports: seq<Report>, id: string, key: Key)
    requires DistinctReports(reports) && HasKeyed(reports, id, key)
    ensures OfKey(reports, id, key)
  {
    forall k | 0 <= k < |reports| && reports[k].id == id ensures KeyOf(reports[k]) == key {
      assert HasKeyed(reports, id, KeyOf(reports[k]));
      OneKeyOnly(reports, id, KeyOf(reports[k]), key);
    }
  }

  lemma AtMostOneUnderWay(o: Office, id: string, key: Key)
    requires OfficeInv(o) && Undisturbed(o, key) && OfKey(o.books.reports, id, key)
    ensures Marked(o.books.reports, id) + |UnderWay(o.work, id)| <= 1
  {
    var at := UnderWay(o.work, id);
    if c :| c in at {
      WorkerIsOnKey(o, c, id, key);
      forall d | d in at ensures d == c { WorkerIsOnKey(o, d, id, key); }
      assert at == {c};
    } else {
      assert at == {};
    }
  }

  // ---- Amounts

  function BillsAmount(bills: seq<Bill>, key: Key): int {
    if bills == [] then 0
    else BillsAmount(bills[..|bills| - 1], key) + if bills[|bills| - 1].key == key then bills[|bills| - 1].amount else 0
  }

  function Times(n: nat, x: int): int {
    if n == 0 then 0 else x + Times(n - 1, x)
  }

  /** The reports of a key, each counted as often as it was paid. */
  function PaidAmount(reports: seq<Report>, bills: seq<Bill>, key: Key): int {
    if reports == [] then 0
    else
      var last := reports[|reports| - 1];
      PaidAmount(reports[..|reports| - 1], bills, key)
      + if KeyOf(last) == key then Times(Covers(bills, last.id), last.amount) else 0
  }

  /** A payment counts each of its reports once more. */
  lemma {:induction false} PaidOnceMore(reports: seq<Report>, bills: seq<Bill>, bill: Bill, key: Key)
    requires forall k :: 0 <= k < |reports| && reports[k].id in bill.covers ==> KeyOf(reports[k]) == bill.key
    ensures PaidAmount(reports, bills + [bill], key)
         == PaidAmount(reports, bills, key) + if bill.key == key then AmountWithin(reports, bill.covers) else 0
  {
    if reports != [] {
      var last := reports[|reports| - 1];
      PaidOnceMore(reports[..|reports| - 1], bills, bill, key);
      CoversSnoc(bills, bill, last.id);
    }
  }

  lemma {:induction false} MarksPayNothing(a: seq<Report>, b: seq<Report>, bills: seq<Bill>, key: Key)
    requires SameButMarks(a, b)
    ensures PaidAmount(a, bills, key) == PaidAmount(b, bills, key)
  {
    if a != [] { MarksPayNothing(a[..|a| - 1], b[..|b| - 1], bills, key); }
  }

  lemma {:induction false} UnknownIsUncovered(bills: seq<Bill>, id: string)
    requires forall k :: 0 <= k < |bills| ==> id !in bills[k].covers
    ensures Covers(bills, id) == 0
  {
    if bills != [] {
      assert id !in bills[|bills| - 1].covers;
      UnknownIsUncovered(bills[..|bills| - 1], id);
    }
  }

  lemma ApplyPays(o: Office, e: Event, key: Key)
    requires OfficeInv(o) && BillsAmount(o.books.bills, key) == PaidAmount(o.books.reports, o.books.bills, key)
    ensures var b := Apply(o, e).books; BillsAmount(b.bills, key) == PaidAmount(b.reports, b.bills, key)
  {
    var b := o.books;
    match e
    case Digest(r) =>
      if !HasReport(b.reports, r.id) { UnknownIsUncovered(b.bills, r.id); }
      assert (b.reports + [r])[..|b.reports|] == b.reports;
    case NextDay =>
    case Find(c, k) =>
    case Pay(c) => if c in o.work && o.work[c].Found? { PayPays(o, c, key); }
    case Marks(c) =>
      if c in o.work && o.work[c].Paid? {
        MarksPayNothing(b.reports, Apply(o, e).books.reports, b.bills, key);
      }
    case Stop(c) =>
  }

  lemma PayPays(o: Office, c: string, key: Key)
    requires OfficeInv(o) && c in o.work && o.work[c].Found?
    ensures var b, t := o.books, WithBill(o.books, o.work[c]);
      BillsAmount(t.bills, key) - PaidAmount(t.reports, t.bills, key)
      == BillsAmount(b.bills, key) - PaidAmount(b.reports, b.bills, key)
  {
    var b, w := o.books, o.work[c];
    var bill := Bill(w.key, Amount(w.due), Ids(w.due));
    forall k | 0 <= k < |b.reports| && b.reports[k].id in bill.covers ensures KeyOf(b.reports[k]) == bill.key {
      KeyedIsOfKey(b.reports, b.reports[k].id, w.key);
    }
    PaidOnceMore(b.reports, b.bills, bill, key);
    assert (b.bills + [bill])[..|b.bills|] == b.bills;
  }

  /**
   After any history the payments of a seller, currency and kind total exactly the reports of that key, each counted as
   often as it was paid.
   */
  lemma {:induction false} BillingConservation(events: seq<Event>, key: Key)
    ensures var b := History(events).books; BillsAmount(b.bills, key) == PaidAmount(b.reports, b.bills, key)
  {
    if events != [] {
      BillingConservation(events[..|events| - 1], key);
      HistoryKeepsOffice(events[..|events| - 1]);
      ApplyPays(History(events[..|events| - 1]), events[|events| - 1], key);
    }
  }

  lemma {:induction false} PaidAsMarked(reports: seq<Report>, bills: seq<Bill>, key: Key)
    requires forall k :: 0 <= k < |reports| && KeyOf(reports[k]) == key ==>
      Covers(bills, reports[k].id) == if reports[k].billed then 1 else 0
    ensures PaidAmount(reports, bills, key) == BilledAmount(reports, key)
  {
    if reports != [] {
      var last := reports[|reports| - 1];
      PaidAsMarked(reports[..|reports| - 1], bills, key);
      assert Times(1, last.amount) == last.amount + Times(0, last.amount);
    }
  }

  /** Separate runs, all of them done: the payments of a key total exactly its marked reports. */
  lemma SeparateRunsTotal(events: seq<Event>, key: Key)
    requires Exclusive(events, key) && NeverLost(events, key) && NobodyOn(History(events).work, key)
    ensures var b := History(events).books; BillsAmount(b.bills, key) == BilledAmount(b.reports, key)
  {
    var o := History(events);
    BillingConservation(events, key);
    HistoryKeepsOffice(events);
    forall k | 0 <= k < |o.books.reports| && KeyOf(o.books.reports[k]) == key
      ensures Covers(o.books.bills, o.books.reports[k].id) == if o.books.reports[k].billed then 1 else 0
    {
      DoneIsMarked(events, key, k);
    }
    PaidAsMarked(o.books.reports, o.books.bills, key);
  }

  lemma NobodyUnderWay(o: Office, id: string, key: Key)
    requires OfficeInv(o) && NobodyOn(o.work, key) && OfKey(o.books.reports, id, key)
    ensures UnderWay(o.work, id) == {}
  {
    forall c, k | c in o.work && 0 <= k < |Ids(o.work[c].due)| ensures Ids(o.work[c].due)[k] != id {
      assert Ids(o.work[c].due)[k] in Ids(o.work[c].due);
      assert HasKeyed(o.books.reports, Ids(o.work[c].due)[k], o.work[c].key);
    }
  }

  lemma DoneIsMarked(events: seq<Event>, key: Key, k: nat)
    requires Exclusive(events, key) && NeverLost(events, key) && NobodyOn(History(events).work, key)
    requires k < |History(events).books.reports| && KeyOf(History(events).books.reports[k]) == key
    ensures var o := History(events);
      Covers(o.books.bills, o.books.reports[k].id) == if o.books.reports[k].billed then 1 else 0
  {
    var o := History(events);
    var r := o.books.reports[k];
    HistoryKeepsOffice(events);
    SeparateRunsBillOnce(events, key, r.id);
    KeyedIsOfKey(o.books.reports, r.id, key);
    NobodyUnderWay(o, r.id, key);
    if IsMarked(o.books.reports, r.id) {
      var j :| 0 <= j < |o.books.reports| && o.books.reports[j].id == r.id && o.books.reports[j].billed;
      assert Ids(o.books.reports)[j] == Ids(o.books.reports)[k];
      assert j == k;
    }
  }

  // ---- Two ways to bill a report of 10 twice

  const TEN: Report := Report("r", "s", SELLER, "TRY", 0, true, false, 1, 10, false)

  const TEN_KEY: Key := Key("s", "TRY", SELLER)

  const TEN_BILL: Bill := Bill(TEN_KEY, 10, ["r"])

  const FOUND_TEN: Work := Found(TEN_KEY, [TEN])

  const PAID_TEN: Work := Paid(TEN_KEY, [TEN])

  /** The report is complete, and nobody works on it. */
  const DAY_AFTER: seq<Event> := [Digest(TEN)] + [NextDay]

  function TenOffice(bills: seq<Bill>, work: map<string, Work>): Office { Office(Books(1, [TEN], bills), work) }

  lemma OneReport()
    ensures Due([TEN], TEN_KEY, 1) == [TEN] && Amount([TEN]) == 10 && Ids([TEN]) == ["r"]
    ensures Mark([TEN], ["r"]) == [TEN.(billed := true)]
  {
    assert [TEN][..0] == [];
    assert Due([], TEN_KEY, 1) == [] && [] + [TEN] == [TEN];
  }

  lemma AfterTheDay()
    ensures History(DAY_AFTER) == TenOffice([], map[])
  {
    HistorySnoc([], Digest(TEN));
    assert [] + [Digest(TEN)] == [Digest(TEN)] && [] + [TEN] == [TEN];
    HistorySnoc([Digest(TEN)], NextDay);
  }

  lemma FindTen(bills: seq<Bill>, work: map<string, Work>, c: string)
    requires c !in work
    ensures Apply(TenOffice(bills, work), Find(c, TEN_KEY)) == TenOffice(bills, work[c := FOUND_TEN])
  {
    OneReport();
  }

  lemma PayTen(bills: seq<Bill>, work: map<string, Work>, c: string)
    requires c in work && work[c] == FOUND_TEN
    ensures Apply(TenOffice(bills, work), Pay(c)) == TenOffice(bills + [TEN_BILL], work[c := PAID_TEN])
  {
    OneReport();
  }

  lemma TwiceTen(b: Books)
    requires b.bills == [TEN_BILL] + [TEN_BILL] && b.reports == [TEN.(billed := true)]
    ensures BillsAmount(b.bills, TEN_KEY) == 20 && BilledAmount(b.reports, TEN_KEY) == 10 && Covers(b.bills, "r") == 2
  {
    assert ([TEN_BILL] + [TEN_BILL])[..1] == [TEN_BILL] && [TEN_BILL][..0] == [] && b.reports[..0] == [];
    assert BillsAmount([TEN_BILL], TEN_KEY) == 10 && Covers([TEN_BILL], "r") == 1;
  }

  const MARKED_TEN: Report := TEN.(billed := true)

  lemma BillTen(bills: seq<Bill>)
    ensures BillFor(Books(1, [TEN], bills), TEN_KEY) == Books(1, [MARKED_TEN], bills + [TEN_BILL])
  {
    OneReport();
  }

  lemma MarkTen(report: Report, bills: seq<Bill>, work: map<string, Work>, c: string)
    requires report in {TEN, MARKED_TEN} && c in work && work[c] == PAID_TEN
    ensures Apply(Office(Books(1, [report], bills), work), Marks(c))
         == Office(Books(1, [MARKED_TEN], bills), work - {c})
  {
    assert Ids([TEN]) == ["r"];
    assert Mark([report], ["r"]) == [MARKED_TEN];
  }

  /** A run pays and stops, the next one finds the report still unmarked and pays again. */
  lemma CrashBillsTwice()
    ensures var b := History(CRASH).books;
      BillsAmount(b.bills, TEN_KEY) == 20 && BilledAmount(b.reports, TEN_KEY) == 10 && Covers(b.bills, "r") == 2
  {
    BilledAndStopped();
    var stopped := DAY_AFTER + [Find("a", TEN_KEY)] + [Pay("a")] + [Stop("a")];
    BillForIsHistory(stopped, "b", TEN_KEY);
    assert stopped + KeyEvents("b", TEN_KEY) == CRASH;
    BillTen([TEN_BILL]);
    TwiceTen(History(CRASH).books);
  }

  const CRASH: seq<Event> :=
    DAY_AFTER + [Find("a", TEN_KEY)] + [Pay("a")] + [Stop("a")] + [Find("b", TEN_KEY)] + [Pay("b")] + [Marks("b")]

  lemma FoundAndPaid()
    ensures History(DAY_AFTER + [Find("a", TEN_KEY)] + [Pay("a")]) == TenOffice([TEN_BILL], map["a" := PAID_TEN])
  {
    AfterTheDay();
    FindAndPay(DAY_AFTER, [], map[], "a");
    assert [] + [TEN_BILL] == [TEN_BILL] && map["a" := FOUND_TEN]["a" := PAID_TEN] == map["a" := PAID_TEN];
  }

  lemma FindAndPay(events: seq<Event>, bills: seq<Bill>, work: map<string, Work>, c: string)
    requires History(events) == TenOffice(bills, work) && c !in work
    ensures History(events + [Find(c, TEN_KEY)] + [Pay(c)])
         == TenOffice(bills + [TEN_BILL], work[c := FOUND_TEN][c := PAID_TEN])
  {
    var found := events + [Find(c, TEN_KEY)];
    FindOn(events, bills, work, c);
    PayOn(found, bills, work[c := FOUND_TEN], c);
  }

  lemma FindOn(events: seq<Event>, bills: seq<Bill>, work: map<string, Work>, c: string)
    requires History(events) == TenOffice(bills, work) && c !in work
    ensures History(events + [Find(c, TEN_KEY)]) == TenOffice(bills, work[c := FOUND_TEN])
  {
    HistorySnoc(events, Find(c, TEN_KEY));
    FindTen(bills, work, c);
  }

  lemma PayOn(events: seq<Event>, bills: seq<Bill>, work: map<string, Work>, c: string)
    requires History(events) == TenOffice(bills, work) && c in work && work[c] == FOUND_TEN
    ensures History(events + [Pay(c)]) == TenOffice(bills + [TEN_BILL], work[c := PAID_TEN])
  {
    HistorySnoc(events, Pay(c));
    PayTen(bills, work, c);
  }

  lemma BilledAndStopped()
    ensures History(DAY_AFTER + [Find("a", TEN_KEY)] + [Pay("a")] + [Stop("a")]) == TenOffice([TEN_BILL], map[])
  {
    FoundAndPaid();
    HistorySnoc(DAY_AFTER + [Find("a", TEN_KEY)] + [Pay("a")], Stop("a"));
    assert map["a" := PAID_TEN] - {"a"} == map[];
  }

  /** Two runs find the report before either marks it; neither stops, and both pay. */
  lemma OverlapBillsTwice()
    ensures var b := History(OVERLAP).books;
      BillsAmount(b.bills, TEN_KEY) == 20 && BilledAmount(b.reports, TEN_KEY) == 10 && Covers(b.bills, "r") == 2
    ensures forall n :: 0 <= n < |OVERLAP| ==> !OVERLAP[n].Stop?
  {
    BothHavePaid();
    BothMark();
    TwiceTen(History(OVERLAP).books);
  }

  lemma BothMark()
    requires History(BOTH_PAID) == TenOffice([TEN_BILL] + [TEN_BILL], map["a" := PAID_TEN, "b" := PAID_TEN])
    ensures History(OVERLAP).books == Books(1, [MARKED_TEN], [TEN_BILL] + [TEN_BILL])
  {
    var bills, both := [TEN_BILL] + [TEN_BILL], map["a" := PAID_TEN, "b" := PAID_TEN];
    HistorySnoc(BOTH_PAID, Marks("a"));
    MarkTen(TEN, bills, both, "a");
    HistorySnoc(BOTH_PAID + [Marks("a")], Marks("b"));
    MarkTen(MARKED_TEN, bills, both - {"a"}, "b");
  }

  const BOTH_PAID: seq<Event> :=
    DAY_AFTER + [Find("a", TEN_KEY)] + [Find("b", TEN_KEY)] + [Pay("a")] + [Pay("b")]

  const OVERLAP: seq<Event> := BOTH_PAID + [Marks("a")] + [Marks("b")]

  lemma BothHavePaid()
    ensures History(BOTH_PAID) == TenOffice([TEN_BILL] + [TEN_BILL], map["a" := PAID_TEN, "b" := PAID_TEN])
  {
    AfterTheDay();
    BothFindAndPay(DAY_AFTER);
    assert map["a" := FOUND_TEN]["b" := FOUND_TEN]["a" := PAID_TEN]["b" := PAID_TEN]
        == map["a" := PAID_TEN, "b" := PAID_TEN];
  }

  lemma BothFindAndPay(events: seq<Event>)
    requires History(events) == TenOffice([], map[])
    ensures History(events + [Find("a", TEN_KEY)] + [Find("b", TEN_KEY)] + [Pay("a")] + [Pay("b")])
         == TenOffice([TEN_BILL] + [TEN_BILL],
                      map["a" := FOUND_TEN]["b" := FOUND_TEN]["a" := PAID_TEN]["b" := PAID_TEN])
  {
    var found := events + [Find("a", TEN_KEY)] + [Find("b", TEN_KEY)];
    FindOn(events, [], map[], "a");
    FindOn(events + [Find("a", TEN_KEY)], [], map["a" := FOUND_TEN], "b");
    PayOn(found, [], map["a" := FOUND_TEN]["b" := FOUND_TEN], "a");
    assert [] + [TEN_BILL] == [TEN_BILL];
    PayOn(found + [Pay("a")], [TEN_BILL], map["a" := FOUND_TEN]["b" := FOUND_TEN]["a" := PAID_TEN], "b");
  }

  // ---- A run by itself

  /** One billing, without interference. */
  function KeyEvents(c: string, key: Key): seq<Event> { [Find(c, key)] + [Pay(c)] + [Marks(c)] }

  lemma BillForIsThreeSteps(o: Office, c: string, key: Key)
    requires c !in o.work
    ensures Apply(Apply(Apply(o, Find(c, key)), Pay(c)), Marks(c)) == Office(BillFor(o.books, key), o.work)
  {
    var due := DueOf(o.books, key);
    assert o.work[c := Found(key, due)] - {c} == o.work;
    assert o.work[c := Found(key, due)][c := Paid(key, due)] - {c} == o.work;
  }

  lemma BillForIsHistory(events: seq<Event>, c: string, key: Key)
    requires c !in History(events).work
    ensures var o := History(events);
      History(events + KeyEvents(c, key)) == Office(BillFor(o.books, key), o.work)
  {
    HistorySnoc(events, Find(c, key));
    HistorySnoc(events + [Find(c, key)], Pay(c));
    HistorySnoc(events + [Find(c, key)] + [Pay(c)], Marks(c));
    assert events + KeyEvents(c, key) == events + [Find(c, key)] + [Pay(c)] + [Marks(c)];
    BillForIsThreeSteps(History(events), c, key);
  }

  function AllEvents(c: string, keys: seq<Key>): seq<Event> {
    if keys == [] then [] else AllEvents(c, keys[..|keys| - 1]) + KeyEvents(c, keys[|keys| - 1])
  }

  lemma {:induction false} BillAllIsHistory(events: seq<Event>, c: string, keys: seq<Key>)
    requires c !in History(events).work
    ensures History(events + AllEvents(c, keys)) == Office(BillAll(History(events).books, keys), History(events).work)
  {
    if keys == [] {
      assert events + AllEvents(c, keys) == events;
    } else {
      var done, last := AllEvents(c, keys[..|keys| - 1]), keys[|keys| - 1];
      BillAllIsHistory(events, c, keys[..|keys| - 1]);
      BillForIsHistory(events + done, c, last);
      Associates(events, done, KeyEvents(c, last));
    }
  }

  lemma Associates<T>(a: seq<T>, b: seq<T>, c: seq<T>)
    ensures a + (b + c) == (a + b) + c
  {
  }

  function RunEvents(b: Books, c: string, sellers: seq<string>, account: string): seq<Event> {
    if sellers == [] then []
    else
      var before := RunFor(b, sellers[..|sellers| - 1], account);
      RunEvents(b, c, sellers[..|sellers| - 1], account)
      + AllEvents(c, KeysFor(before, sellers[|sellers| - 1], account))
  }

  /** A whole run of `runBilling` by itself is a stretch of history, so what holds of every history holds after runs. */
  lemma {:induction false} RunIsHistory(events: seq<Event>, c: string, sellers: seq<string>, account: string)
    requires c !in History(events).work
    ensures var o := History(events);
      History(events + RunEvents(o.books, c, sellers, account)) == Office(RunFor(o.books, sellers, account), o.work)
  {
    var b := History(events).books;
    if sellers == [] {
      assert events + RunEvents(b, c, sellers, account) == events;
    } else {
      var before, last := sellers[..|sellers| - 1], sellers[|sellers| - 1];
      RunIsHistory(events, c, before, account);
      var done, keys := RunEvents(b, c, before, account), KeysFor(RunFor(b, before, account), last, account);
      BillAllIsHistory(events + done, c, keys);
      Associates(events, done, AllEvents(c, keys));
    }
  }

  // ---- No payment is made from a report that is not ripe

  /** A daily report of a day that is over, not archived, with payments in it. */
  predicate Ripe(reports: seq<Report>, id: string, today: nat) {
    exists k :: 0 <= k < |reports| && reports[k].id == id && reports[k].daily && reports[k].day < today
      && !reports[k].archived && reports[k].payments > 0
  }

  predicate AllRipe(b: Books, ids: seq<string>) { forall k :: 0 <= k < |ids| ==> Ripe(b.reports, ids[k], b.today) }

  ghost predicate RipeOffice(o: Office) {
    && (forall c :: c in o.work ==> AllRipe(o.books, Ids(o.work[c].due)))
    && forall i :: 0 <= i < |o.books.bills| ==> AllRipe(o.books, o.books.bills[i].covers)
  }

  /** Books in which nothing that was ripe is unripe. */
  predicate Ripens(a: Books, b: Books) {
    && |a.reports| <= |b.reports| && a.today <= b.today
    && forall k :: 0 <= k < |a.reports| ==> b.reports[k] == a.reports[k].(billed := b.reports[k].billed)
  }

  lemma StaysRipe(a: Books, b: Books, ids: seq<string>)
    requires Ripens(a, b) && AllRipe(a, ids)
    ensures AllRipe(b, ids)
  {
    forall k | 0 <= k < |ids| ensures Ripe(b.reports, ids[k], b.today) {
      var j :| 0 <= j < |a.reports| && a.reports[j].id == ids[k] && a.reports[j].daily && a.reports[j].day < a.today
        && !a.reports[j].archived && a.reports[j].payments > 0;
      assert b.reports[j].id == ids[k];
    }
  }

  lemma FoundIsRipe(b: Books, key: Key)
    ensures AllRipe(b, Ids(DueOf(b, key)))
  {
    var ids := Ids(DueOf(b, key));
    forall k | 0 <= k < |ids| ensures Ripe(b.reports, ids[k], b.today) {
      DueHas(b.reports, key, b.today, ids[k]);
      var j :| 0 <= j < |b.reports| && b.reports[j].id == ids[k] && IsDue(b.reports[j], key, b.today);
      assert b.reports[j].daily;
    }
  }

  lemma ApplyRipens(o: Office, e: Event)
    ensures Ripens(o.books, Apply(o, e).books)
  {
  }

  /** What is in hand or paid after an event was so before, or is in hand as found, or paid as it was in hand. */
  lemma ApplyKeepsRipe(o: Office, e: Event)
    requires RipeOffice(o)
    ensures RipeOffice(Apply(o, e))
  {
    var t := Apply(o, e);
    ApplyRipens(o, e);
    forall c | c in t.work ensures AllRipe(t.books, Ids(t.work[c].due)) {
      if c in o.work && o.work[c].due == t.work[c].due {
        StaysRipe(o.books, t.books, Ids(t.work[c].due));
      } else {
        FoundIsRipe(o.books, e.key);
      }
    }
    forall i | 0 <= i < |t.books.bills| ensures AllRipe(t.books, t.books.bills[i].covers) {
      if i < |o.books.bills| {
        StaysRipe(o.books, t.books, t.books.bills[i].covers);
      } else {
        StaysRipe(o.books, t.books, Ids(o.work[e.runner].due));
      }
    }
  }

  /**
   After any history, however runs overlap and stop: every payment was made only from daily reports of days that were
   over, not archived, with payments in them.
   */
  lemma {:induction false} PaymentsAreFromRipeReports(events: seq<Event>)
    ensures RipeOffice(History(events))
  {
    if events != [] {
      PaymentsAreFromRipeReports(events[..|events| - 1]);
      ApplyKeepsRipe(History(events[..|events| - 1]), events[|events| - 1]);
    }
  }
}
