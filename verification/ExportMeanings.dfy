/** What an exported page holds, told by the records, the query and the clock: which records give an item,
    which of them are within the bounds asked for, in which order they come, and what is refused. */
module ExportMeanings {
  import opened Prelude
  import opened Observations

  // ---------------------------------------------------------------- which records give an item

  /** A gate evaluation gives an item; so does an acknowledgement that names its evidence and its reviewer. */
  predicate ComesOfEvent(e: AuditEvent, x: Item) {
    || (e.eventType == "run.systemGateEvaluated" && x == Item(Gate, "gate:" + e.id, e.occurredAt, e.body))
    || (e.eventType == "evidence.acknowledged" && x == Item(Evidence, "evidence:" + e.id, e.occurredAt, e.body)
        && e.evidenceId.Some? && e.evidenceId.value != "" && e.reviewedBy.Some? && e.reviewedBy.value != "")
  }

  /** So does every retrospective. */
  predicate ComesOfRetrospective(t: Retrospective, x: Item) {
    x == Item(Reflection, "reflection:" + t.id, t.generatedAt, t.body)
  }

  ghost predicate OnRecord(r: Records, x: Item) {
    (exists e :: e in r.events && ComesOfEvent(e, x)) || (exists t :: t in r.retros && ComesOfRetrospective(t, x))
  }

  lemma EventGives(e: AuditEvent, x: Item)
    ensures x in ToItems(e) <==> ComesOfEvent(e, x)
  {}

  lemma ItemsAreOnRecord(r: Records, x: Item)
    ensures x in r.Items() <==> OnRecord(r, x)
  {
    EventItems(r.events);
    RetrospectiveItems(r.retros);
    if x in OfEvents(r.events) {
      var e :| e in r.events && x in ToItems(e);
      EventGives(e, x);
    }
    if x in OfRetrospectives(r.retros) {
      var i :| 0 <= i < |r.retros| && OfRetrospectives(r.retros)[i] == x;
      assert r.retros[i] in r.retros && ComesOfRetrospective(r.retros[i], x);
    }
    if e :| e in r.events && ComesOfEvent(e, x) {
      EventGives(e, x);
    }
  }

  // ---------------------------------------------------------------- which of them are asked for

  /** The time can be read and lies between the bounds, both included. */
  predicate Timely(p: Platform, at: string, q: Query) {
    && p.parse(at).Some?
    && (q.since.Some? ==> p.parse(q.since.value).Some? && p.parse(q.since.value).value <= p.parse(at).value)
    && (q.until.Some? ==> p.parse(q.until.value).Some? && p.parse(at).value <= p.parse(q.until.value).value)
  }

  ghost predicate AskedFor(p: Platform, r: Records, q: Query, x: Item) {
    OnRecord(r, x) && Timely(p, x.occurredAt, q)
  }

  lemma SelectedIff(p: Platform, r: Records, q: Query, x: Item)
    requires p.Collates() && r.UniqueIds() && BoundsOf(p, q).Ok?
    ensures x in SelectedBy(p, r, q) <==> AskedFor(p, r, q, x)
  {
    SelectionMeans(p, r, BoundsOf(p, q).value.since, BoundsOf(p, q).value.until);
    ItemsAreOnRecord(r, x);
  }

  // ---------------------------------------------------------------- one page

  /** Earlier in the platform's order of time, or at the same time and earlier in its order of id. */
  predicate Earlier(p: Platform, a: Item, b: Item) {
    if a.occurredAt == b.occurredAt then p.before(a.id, b.id) else p.before(a.occurredAt, b.occurredAt)
  }

  /** How many items a page may hold: a hundred unless the query says. */
  function Room(q: Query): nat {
    if q.limit.Some? && q.limit.value >= 0.0 then q.limit.value.Floor else 100
  }

  lemma PageOf(p: Platform, r: Records, q: Query, page: Page) returns (start: nat)
    requires p.Collates() && r.UniqueIds() && Export(p, r, q) == Ok(page)
    ensures BoundsOf(p, q).Ok? && BoundsOf(p, q).value.limit == Room(q) >= 1
    ensures start <= |SelectedBy(p, r, q)| && page == PageFrom(SelectedBy(p, r, q), start, Room(q))
  {
    start := ResolveCursor(SelectedBy(p, r, q), q.cursor).value;
  }

  /** Every item of an answered page is on record and within the bounds, and the items come in order. */
  lemma PageHolds(p: Platform, r: Records, q: Query, page: Page)
    requires p.Collates() && r.UniqueIds() && Export(p, r, q) == Ok(page)
    ensures forall x :: x in page.items ==> AskedFor(p, r, q, x)
    ensures forall i, j :: 0 <= i < j < |page.items| ==> Earlier(p, page.items[i], page.items[j])
    ensures |page.items| <= Room(q)
  {
    var start := PageOf(p, r, q, page);
    var s := SelectedBy(p, r, q);
    SelectionInOrder(p, r, q);
    forall x | x in page.items ensures AskedFor(p, r, q, x) {
      SelectedIff(p, r, q, x);
    }
    forall i, j | 0 <= i < j < |page.items| ensures Earlier(p, page.items[i], page.items[j]) {
      assert page.items[i] == s[start + i] && page.items[j] == s[start + j];
      assert Less(p, s[start + i], s[start + j]);
    }
  }

  /** A page is full if another follows, and then names its own last item; there is no other exactly if
      nothing asked for comes after it. */
  lemma NextIff(p: Platform, r: Records, q: Query, page: Page)
    requires p.Collates() && r.UniqueIds() && Export(p, r, q) == Ok(page)
    ensures page.next.Some? ==> |page.items| == Room(q) && page.next.value == page.items[|page.items| - 1].id
    ensures page.items != [] ==>
      (page.next.Some? <==> exists x :: AskedFor(p, r, q, x) && Earlier(p, page.items[|page.items| - 1], x))
  {
    var start := PageOf(p, r, q, page);
    var s := SelectedBy(p, r, q);
    SelectionInOrder(p, r, q);
    if page.items != [] {
      var k := start + |page.items| - 1;
      assert s[k] == page.items[|page.items| - 1];
      if page.next.Some? {
        SelectedIff(p, r, q, s[k + 1]);
        assert Less(p, s[k], s[k + 1]);
      }
      if x :| AskedFor(p, r, q, x) && Earlier(p, s[k], x) {
        SelectedIff(p, r, q, x);
        var m :| 0 <= m < |s| && s[m] == x;
        if m <= k {
          NotEarlier(p, s, m, k);
        }
      }
    }
  }

  lemma NotEarlier(p: Platform, s: seq<Item>, m: nat, k: nat)
    requires p.Collates() && Increasing(p, s) && m <= k < |s|
    ensures !Earlier(p, s[k], s[m])
  {
    if m < k && Earlier(p, s[k], s[m]) {
      assert Less(p, s[m], s[k]) && Less(p, s[k], s[m]);
      LessIsTransitive(p, s[m], s[k], s[m]);
    }
  }

  /** A finished walk has returned everything asked for that was on record when it began. */
  lemma WalkReturns(p: Platform, states: seq<Records>, q: Query, pages: seq<Page>, x: Item)
    requires p.Collates() && IsWalk(p, states, q, pages) && pages[|pages| - 1].next.None?
    requires AskedFor(p, states[0], q, x)
    ensures exists j :: 0 <= j < |pages| && x in pages[j].items
  {
    BoundsSound(p, states, q, pages);
    assert states[0].UniqueIds();
    SelectedIff(p, states[0], q, x);
    var j := EveryItemReturned(p, states, q, pages, x);
  }

  // ---------------------------------------------------------------- what is refused

  predicate Unreadable(p: Platform, bound: Option<string>) {
    bound.Some? && p.parse(bound.value).None?
  }

  /** A page holds from one to five hundred items. */
  predicate GoodLimit(q: Query) {
    q.limit.Some? ==> q.limit.value == q.limit.value.Floor as real && 1.0 <= q.limit.value <= 500.0
  }

  /** What is wrong with a query, in the order in which it is looked at. */
  lemma RefusedIff(p: Platform, r: Records, q: Query)
    requires p.Collates() && r.UniqueIds()
    ensures var crossed := q.since.Some? && q.until.Some? && !Unreadable(p, q.since) && !Unreadable(p, q.until)
                           && p.parse(q.since.value).value > p.parse(q.until.value).value;
            var lost := q.cursor.Some? && q.cursor.value != "" && forall x :: AskedFor(p, r, q, x) ==> x.id != q.cursor.value;
            var fine := !Unreadable(p, q.since) && !Unreadable(p, q.until) && !crossed && GoodLimit(q);
            var answer := Export(p, r, q);
      && (answer == Err(BadSince) <==> Unreadable(p, q.since))
      && (answer == Err(BadUntil) <==> !Unreadable(p, q.since) && Unreadable(p, q.until))
      && (answer == Err(SinceAfterUntil) <==> crossed)
      && (answer == Err(BadLimit) <==> !Unreadable(p, q.since) && !Unreadable(p, q.until) && !crossed && !GoodLimit(q))
      && (answer == Err(BadCursor) <==> fine && lost)
      && (answer.Ok? <==> fine && !lost)
  {
    if BoundsOf(p, q).Ok? {
      CursorLost(p, r, q);
    }
  }

  lemma CursorLost(p: Platform, r: Records, q: Query)
    requires p.Collates() && r.UniqueIds() && BoundsOf(p, q).Ok?
    ensures ResolveCursor(SelectedBy(p, r, q), q.cursor).Err? <==>
      q.cursor.Some? && q.cursor.value != "" && forall x :: AskedFor(p, r, q, x) ==> x.id != q.cursor.value
  {
    var s := SelectedBy(p, r, q);
    forall x ensures x in s <==> AskedFor(p, r, q, x) {
      SelectedIff(p, r, q, x);
    }
    forall i | 0 <= i < |s| ensures AskedFor(p, r, q, s[i]) {
      assert s[i] in s;
    }
  }
}
