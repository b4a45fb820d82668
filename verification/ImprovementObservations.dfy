/** Paging through observations: src/domain/improvement/improvement-observation-service.ts. */
module Observations {
  import opened Prelude

  datatype AuditEvent = AuditEvent(
    id: string, eventType: string, occurredAt: string, evidenceId: Option<string>, reviewedBy: Option<string>, body: string)

  datatype Retrospective = Retrospective(id: string, generatedAt: string, body: string)

  datatype Kind = Gate | Evidence | Reflection

  datatype Item = Item(kind: Kind, id: string, occurredAt: string, body: string)

  /** What the platform supplies: how it collates two strings, and how it reads a timestamp. */
  datatype Platform = Platform(before: (string, string) -> bool, parse: string -> Option<int>)
  {
    ghost predicate Collates() {
      && (forall a :: !before(a, a))
      && (forall a, b, c :: before(a, b) && before(b, c) ==> before(a, c))
      && (forall a, b :: a != b ==> before(a, b) || before(b, a))
    }
  }

  // ---------------------------------------------------------------- what is exported

  function ToItems(e: AuditEvent): seq<Item> {
    if e.eventType == "run.systemGateEvaluated" then [Item(Gate, "gate:" + e.id, e.occurredAt, e.body)]
    else if e.eventType == "evidence.acknowledged" && e.evidenceId.GetOr("") != "" && e.reviewedBy.GetOr("") != ""
    then [Item(Evidence, "evidence:" + e.id, e.occurredAt, e.body)]
    else []
  }

  function OfEvents(events: seq<AuditEvent>): seq<Item> {
    if events == [] then [] else OfEvents(events[..|events| - 1]) + ToItems(events[|events| - 1])
  }

  function OfRetrospectives(retros: seq<Retrospective>): seq<Item> {
    seq(|retros|, i requires 0 <= i < |retros| => Item(Reflection, "reflection:" + retros[i].id, retros[i].generatedAt, retros[i].body))
  }

  /** The canonical records the export is projected from. */
  datatype Records = Records(events: seq<AuditEvent>, retros: seq<Retrospective>)
  {
    function Items(): seq<Item> {
      OfEvents(events) + OfRetrospectives(retros)
    }

    ghost predicate UniqueIds() {
      && (forall i, j :: 0 <= i < j < |events| ==> events[i].id != events[j].id)
      && (forall i, j :: 0 <= i < j < |retros| ==> retros[i].id != retros[j].id)
    }
  }

  ghost predicate Distinct(s: seq<Item>) {
    forall i, j :: 0 <= i < j < |s| ==> s[i].id != s[j].id
  }

  // ---------------------------------------------------------------- the window and the order

  predicate InWindow(p: Platform, at: string, since: Option<int>, until: Option<int>) {
    && p.parse(at).Some?
    && (since.Some? ==> p.parse(at).value >= since.value)
    && (until.Some? ==> p.parse(at).value <= until.value)
  }

  function Filtered(p: Platform, items: seq<Item>, since: Option<int>, until: Option<int>): seq<Item> {
    if items == [] then []
    else
      var before, last := Filtered(p, items[..|items| - 1], since, until), items[|items| - 1];
      if InWindow(p, last.occurredAt, since, until) then before + [last] else before
  }

  /** By time, then by id. */
  predicate Less(p: Platform, a: Item, b: Item) {
    p.before(a.occurredAt, b.occurredAt) || (a.occurredAt == b.occurredAt && p.before(a.id, b.id))
  }

  ghost predicate Increasing(p: Platform, s: seq<Item>) {
    forall i, j :: 0 <= i < j < |s| ==> Less(p, s[i], s[j])
  }

  // ---------------------------------------------------------------- one request

  datatype Query = Query(since: Option<string>, until: Option<string>, limit: Option<real>, cursor: Option<string>)

  datatype Error = BadSince | BadUntil | SinceAfterUntil | BadLimit | BadCursor

  datatype Page = Page(items: seq<Item>, next: Option<string>)

  datatype Result<T> = Ok(value: T) | Err(error: Error)

  /** A bound that is given must be readable. */
  function ParseBound(p: Platform, bound: Option<string>, error: Error): Result<Option<int>> {
    if bound.None? then Ok(None)
    else if p.parse(bound.value).None? then Err(error)
    else Ok(p.parse(bound.value))
  }

  function NormalizeLimit(limit: Option<real>): Result<nat> {
    if limit.None? then Ok(100)
    else if limit.value.Floor as real != limit.value || limit.value < 1.0 || limit.value > 500.0 then Err(BadLimit)
    else Ok(limit.value.Floor)
  }

  /** The first place that holds the id, or the length where none does. */
  function IndexOf(s: seq<Item>, id: string): (r: nat)
    ensures r <= |s| && (r < |s| ==> s[r].id == id)
    ensures forall i :: 0 <= i < r ==> s[i].id != id
  {
    if s == [] || s[0].id == id then 0 else 1 + IndexOf(s[1..], id)
  }

  /** An absent or empty cursor starts from the beginning; any other is refused exactly where it names
      no item, and otherwise leads to the place right behind the first item it names. */
  function ResolveCursor(s: seq<Item>, cursor: Option<string>): (r: Result<nat>)
    ensures cursor.GetOr("") == "" ==> r == Ok(0)
    ensures r.Ok? ==> r.value <= |s|
    ensures cursor.GetOr("") != "" && r.Ok? ==>
      && r.value > 0 && s[r.value - 1].id == cursor.value
      && forall i :: 0 <= i < r.value - 1 ==> s[i].id != cursor.value
    ensures r.Err? <==> cursor.GetOr("") != "" && forall i :: 0 <= i < |s| ==> s[i].id != cursor.value
    ensures r.Err? ==> r.error == BadCursor
  {
    if cursor.GetOr("") == "" then Ok(0)
    else if IndexOf(s, cursor.value) == |s| then Err(BadCursor)
    else Ok(IndexOf(s, cursor.value) + 1)
  }

  function PageFrom(s: seq<Item>, start: nat, limit: nat): Page
    requires start <= |s|
  {
    var items := s[start..if start + limit <= |s| then start + limit else |s|];
    Page(items, if |s| > start + |items| && items != [] then Some(items[|items| - 1].id) else None)
  }

  function Selection(p: Platform, r: Records, since: Option<int>, until: Option<int>): seq<Item> {
    Sort((a: Item, b: Item) => Less(p, a, b), Filtered(p, r.Items(), since, until))
  }

  /** The window and page size a query asks for; the cursor is looked at last. */
  datatype Bounds = Bounds(since: Option<int>, until: Option<int>, limit: nat)

  function BoundsOf(p: Platform, q: Query): Result<Bounds> {
    var since, until := ParseBound(p, q.since, BadSince), ParseBound(p, q.until, BadUntil);
    if since.Err? then Err(since.error)
    else if until.Err? then Err(until.error)
    else if since.value.Some? && until.value.Some? && since.value.value > until.value.value then Err(SinceAfterUntil)
    else if NormalizeLimit(q.limit).Err? then Err(NormalizeLimit(q.limit).error)
    else Ok(Bounds(since.value, until.value, NormalizeLimit(q.limit).value))
  }

  function Export(p: Platform, r: Records, q: Query): Result<Page> {
    match BoundsOf(p, q)
    case Err(e) => Err(e)
    case Ok(b) =>
      var s := Selection(p, r, b.since, b.until);
      match ResolveCursor(s, q.cursor)
      case Err(e) => Err(e)
      case Ok(start) => Ok(PageFrom(s, start, b.limit))
  }

  // ---------------------------------------------------------------- ids are unique

  lemma {:induction false} EventItems(events: seq<AuditEvent>)
    ensures forall x :: x in OfEvents(events) <==> exists e :: e in events && x in ToItems(e)
  {
    if events != [] {
      EventItems(events[..|events| - 1]);
      assert events == events[..|events| - 1] + [events[|events| - 1]];
    }
  }

  lemma RetrospectiveItems(retros: seq<Retrospective>)
    ensures forall t :: t in retros ==>
      Item(Reflection, "reflection:" + t.id, t.generatedAt, t.body) in OfRetrospectives(retros)
  {
    forall t | t in retros ensures Item(Reflection, "reflection:" + t.id, t.generatedAt, t.body) in OfRetrospectives(retros) {
      var i :| 0 <= i < |retros| && retros[i] == t;
      assert OfRetrospectives(retros)[i] == Item(Reflection, "reflection:" + t.id, t.generatedAt, t.body);
    }
  }

  /** An item's id tells which event it came from. */
  lemma ItemNamesEvent(e: AuditEvent, f: AuditEvent, x: Item, y: Item)
    requires x in ToItems(e) && y in ToItems(f) && x.id == y.id
    ensures e.id == f.id
  {
    assert x.id[0] == if x.kind == Gate then 'g' else 'e';
    assert y.id[0] == if y.kind == Gate then 'g' else 'e';
    if x.kind == Gate {
      assert x.id[5..] == e.id && y.id[5..] == f.id;
    } else {
      assert x.id[9..] == e.id && y.id[9..] == f.id;
    }
  }

  lemma {:induction false} EventIdsDistinct(events: seq<AuditEvent>)
    requires forall i, j :: 0 <= i < j < |events| ==> events[i].id != events[j].id
    ensures Distinct(OfEvents(events))
  {
    if events != [] {
      var before, last := events[..|events| - 1], events[|events| - 1];
      EventIdsDistinct(before);
      EventItems(before);
      forall x, y | x in OfEvents(before) && y in ToItems(last) ensures x.id != y.id {
        var e :| e in before && x in ToItems(e);
        if x.id == y.id {
          ItemNamesEvent(e, last, x, y);
        }
      }
    }
  }

  /** Different records give items with different ids. */
  lemma ItemIdsDistinct(r: Records)
    requires r.UniqueIds()
    ensures Distinct(r.Items())
  {
    EventIdsDistinct(r.events);
    EventItems(r.events);
    var a, b := OfEvents(r.events), OfRetrospectives(r.retros);
    forall i, j | 0 <= i < |a| && 0 <= j < |b| ensures a[i].id != b[j].id {
      assert a[i] in a;
      assert a[i].id[0] != 'r' && b[j].id[0] == 'r';
    }
    forall i, j | 0 <= i < j < |b| ensures b[i].id != b[j].id {
      assert b[i].id[11..] == r.retros[i].id && b[j].id[11..] == r.retros[j].id;
    }
  }

  // ---------------------------------------------------------------- the selection

  lemma {:induction false} FilteredMeans(p: Platform, items: seq<Item>, since: Option<int>, until: Option<int>)
    ensures forall x :: x in Filtered(p, items, since, until) <==> x in items && InWindow(p, x.occurredAt, since, until)
    ensures Distinct(items) ==> Distinct(Filtered(p, items, since, until))
  {
    if items != [] {
      var before, last := items[..|items| - 1], items[|items| - 1];
      FilteredMeans(p, before, since, until);
      assert items == before + [last];
      if Distinct(items) {
        forall x | x in Filtered(p, before, since, until) ensures x.id != last.id {
          assert x in before;
        }
      }
    }
  }

  lemma LessIsTransitive(p: Platform, a: Item, b: Item, c: Item)
    requires p.Collates() && Less(p, a, b) && Less(p, b, c)
    ensures Less(p, a, c)
  {}

  lemma LessIsWeak(p: Platform)
    requires p.Collates()
    ensures WeakOrder((a: Item, b: Item) => Less(p, a, b))
  {}

  lemma OrderedIsIncreasing(p: Platform, s: seq<Item>)
    requires p.Collates() && Ordered((a: Item, b: Item) => Less(p, a, b), s) && Distinct(s)
    ensures Increasing(p, s)
  {}

  lemma SameIdsDistinct(s: seq<Item>, t: seq<Item>)
    requires multiset(s) == multiset(t) && Distinct(t)
    ensures Distinct(s)
  {
    forall i, j | 0 <= i < j < |s| ensures s[i].id != s[j].id {
      if s[i].id == s[j].id {
        assert s[i] in multiset(s) && s[j] in multiset(s);
        assert s[i] in t && s[j] in t;
        assert s[i] == s[j];
        CountsTwice(s, i, j);
        DistinctCountsOnce(t, s[i]);
      }
    }
  }

  lemma CountsTwice(s: seq<Item>, i: nat, j: nat)
    requires i < j < |s| && s[i] == s[j]
    ensures multiset(s)[s[i]] >= 2
  {
    assert s == s[..i] + [s[i]] + s[i + 1..j] + [s[j]] + s[j + 1..];
  }

  lemma {:induction false} DistinctCountsOnce(t: seq<Item>, x: Item)
    requires Distinct(t)
    ensures multiset(t)[x] <= 1
  {
    if t != [] {
      var before, last := t[..|t| - 1], t[|t| - 1];
      assert t == before + [last];
      DistinctCountsOnce(before, x);
      if x == last {
        assert x !in before;
      }
    }
  }

  /** The selection is the items of the window in strictly increasing order. */
  lemma SelectionMeans(p: Platform, r: Records, since: Option<int>, until: Option<int>)
    requires p.Collates() && r.UniqueIds()
    ensures Increasing(p, Selection(p, r, since, until))
    ensures forall x :: x in Selection(p, r, since, until) <==> x in r.Items() && InWindow(p, x.occurredAt, since, until)
    ensures Distinct(Selection(p, r, since, until))
  {
    ItemIdsDistinct(r);
    FilteredMeans(p, r.Items(), since, until);
    LessIsWeak(p);
    SortOrders((a: Item, b: Item) => Less(p, a, b), Filtered(p, r.Items(), since, until));
    SameIdsDistinct(Selection(p, r, since, until), Filtered(p, r.Items(), since, until));
    OrderedIsIncreasing(p, Selection(p, r, since, until));
  }

  // ---------------------------------------------------------------- pages over growing lists

  function CursorAt(pages: seq<Page>, i: nat): Option<string>
    requires i <= |pages|
  {
    if i == 0 then None else pages[i - 1].next
  }

  /** Every item has its place in one common order. */
  ghost predicate Ranked(s: seq<Item>, rank: Item -> int) {
    && (forall i :: 0 <= i < |s| ==> rank(s[i]) >= 0 && s[i].id != "")
    && (forall i, j :: 0 <= i < j < |s| ==> rank(s[i]) < rank(s[j]))
  }

  ghost predicate RankedAt(lists: seq<seq<Item>>, rank: Item -> int, i: nat)
    requires i < |lists|
  {
    Ranked(lists[i], rank) && Distinct(lists[i]) && (i > 0 ==> forall x :: x in lists[i - 1] ==> x in lists[i])
  }

  /** Page `i` is cut from list `i` behind the cursor of the page before. */
  ghost predicate CutAt(lists: seq<seq<Item>>, limit: nat, pages: seq<Page>, i: nat)
    requires i < |pages| <= |lists|
  {
    && ResolveCursor(lists[i], CursorAt(pages, i)).Ok?
    && pages[i] == PageFrom(lists[i], ResolveCursor(lists[i], CursorAt(pages, i)).value, limit)
    && (i > 0 ==> pages[i - 1].next.Some?)
  }

  ghost predicate Follows(lists: seq<seq<Item>>, rank: Item -> int, limit: nat, pages: seq<Page>) {
    && |pages| <= |lists| && limit >= 1
    && (forall i :: 0 <= i < |pages| ==> RankedAt(lists, rank, i))
    && (forall i :: 0 <= i < |pages| ==> CutAt(lists, limit, pages, i))
  }

  /** How far the pages before `i` have got. */
  ghost function Mark(pages: seq<Page>, rank: Item -> int, i: nat): int
    requires i <= |pages|
  {
    if i == 0 || pages[i - 1].items == [] then -1 else rank(pages[i - 1].items[|pages[i - 1].items| - 1])
  }

  lemma FindsItem(s: seq<Item>, k: nat)
    requires Distinct(s) && k < |s| && s[k].id != ""
    ensures ResolveCursor(s, Some(s[k].id)) == Ok(k + 1)
  {}

  /** A page runs from its start to its last item, or to the end where there is no next one. */
  lemma PageIsInterval(s: seq<Item>, rank: Item -> int, start: nat, limit: nat, m: nat)
    requires Ranked(s, rank) && start <= |s| && limit >= 1 && m < |s|
    ensures var page := PageFrom(s, start, limit);
      s[m] in page.items <==>
        start <= m && (page.next.None? || rank(s[m]) <= rank(page.items[|page.items| - 1]))
  {}

  lemma PageIsPart(s: seq<Item>, start: nat, limit: nat)
    requires start <= |s| && limit >= 1
    ensures var page := PageFrom(s, start, limit);
      && (page.next.Some? ==> page.items != [] && page.next.value == page.items[|page.items| - 1].id)
      && (forall x :: x in page.items ==> x in s)
  {}

  lemma LastIsListed(lists: seq<seq<Item>>, rank: Item -> int, limit: nat, pages: seq<Page>, i: nat) returns (k: nat)
    requires Follows(lists, rank, limit, pages) && 0 < i < |pages|
    ensures pages[i - 1].items != [] && k < |lists[i]|
    ensures lists[i][k] == pages[i - 1].items[|pages[i - 1].items| - 1]
    ensures ResolveCursor(lists[i], CursorAt(pages, i)) == Ok(k + 1)
  {
    assert CutAt(lists, limit, pages, i - 1) && CutAt(lists, limit, pages, i) && RankedAt(lists, rank, i);
    PageIsPart(lists[i - 1], ResolveCursor(lists[i - 1], CursorAt(pages, i - 1)).value, limit);
    var last := pages[i - 1].items[|pages[i - 1].items| - 1];
    assert last in pages[i - 1].items && last in lists[i - 1] && last in lists[i];
    k :| 0 <= k < |lists[i]| && lists[i][k] == last;
    FindsItem(lists[i], k);
  }

  /** What page `i` holds: the items listed by then that lie beyond the page before, up to its own
      last one. */
  lemma PageHolds(lists: seq<seq<Item>>, rank: Item -> int, limit: nat, pages: seq<Page>, i: nat, x: Item)
    requires Follows(lists, rank, limit, pages) && i < |pages|
    ensures x in pages[i].items <==>
      x in lists[i] && rank(x) > Mark(pages, rank, i) && (pages[i].next.None? || rank(x) <= Mark(pages, rank, i + 1))
  {
    assert CutAt(lists, limit, pages, i) && RankedAt(lists, rank, i);
    var start := ResolveCursor(lists[i], CursorAt(pages, i)).value;
    PageIsPart(lists[i], start, limit);
    if i > 0 {
      var k := LastIsListed(lists, rank, limit, pages, i);
    }
    if x in lists[i] {
      var m :| 0 <= m < |lists[i]| && lists[i][m] == x;
      PageIsInterval(lists[i], rank, start, limit, m);
    }
  }

  lemma {:induction false} MarksRise(lists: seq<seq<Item>>, rank: Item -> int, limit: nat, pages: seq<Page>, i: nat, j: nat)
    requires Follows(lists, rank, limit, pages) && i <= j < |pages|
    ensures Mark(pages, rank, i) <= Mark(pages, rank, j)
  {
    if i < j {
      MarksRise(lists, rank, limit, pages, i, j - 1);
      var k := LastIsListed(lists, rank, limit, pages, j);
      PageHolds(lists, rank, limit, pages, j - 1, lists[j][k]);
    }
  }

  lemma {:induction false} OnSomePage(
    lists: seq<seq<Item>>, rank: Item -> int, limit: nat, pages: seq<Page>, i: nat, x: Item) returns (j: nat)
    requires Follows(lists, rank, limit, pages) && i < |pages| && pages[|pages| - 1].next.None?
    requires x in lists[i] && rank(x) > Mark(pages, rank, i)
    ensures i <= j < |pages| && x in pages[j].items
    decreases |pages| - i
  {
    PageHolds(lists, rank, limit, pages, i, x);
    if x in pages[i].items {
      j := i;
    } else {
      assert i + 1 < |pages| && RankedAt(lists, rank, i + 1);
      j := OnSomePage(lists, rank, limit, pages, i + 1, x);
    }
  }

  lemma NothingTwice(lists: seq<seq<Item>>, rank: Item -> int, limit: nat, pages: seq<Page>, i: nat, j: nat, x: Item)
    requires Follows(lists, rank, limit, pages) && i < j < |pages| && x in pages[i].items
    ensures x !in pages[j].items
  {
    PageHolds(lists, rank, limit, pages, i, x);
    PageHolds(lists, rank, limit, pages, j, x);
    assert CutAt(lists, limit, pages, i + 1);
    MarksRise(lists, rank, limit, pages, i + 1, j);
  }

  // ---------------------------------------------------------------- pages over one list

  function Concat(pages: seq<Page>): seq<Item> {
    if pages == [] then [] else pages[0].items + Concat(pages[1..])
  }

  /** The pages of a list from some place on, to the end. */
  function PagesFrom(s: seq<Item>, start: nat, limit: nat): seq<Page>
    requires start <= |s| && limit >= 1
    decreases |s| - start
  {
    var page := PageFrom(s, start, limit);
    if page.next.None? then [page] else [page] + PagesFrom(s, start + |page.items|, limit)
  }

  function Repeated<T>(x: T, n: nat): seq<T> {
    seq(n, _ => x)
  }

  /** `max(1, ceil(n / limit))`. */
  function PagesNeeded(n: nat, limit: nat): nat
    requires limit >= 1
  {
    if n == 0 then 1 else (n + limit - 1) / limit
  }

  predicate EnoughPages(pages: nat, n: nat, limit: nat) {
    pages >= 1 && n <= pages * limit && (n > 0 ==> (pages - 1) * limit < n) && (n == 0 ==> pages == 1)
  }

  lemma EnoughIsNeeded(pages: nat, n: nat, limit: nat)
    requires EnoughPages(pages, n, limit) && limit >= 1
    ensures pages == PagesNeeded(n, limit)
  {
    if n > 0 {
      var rest := n - 1 - (pages - 1) * limit;
      assert n + limit - 1 == pages * limit + rest && 0 <= rest < limit by {
        assert pages * limit == (pages - 1) * limit + limit;
      }
      QuotientIs(n + limit - 1, limit, pages, rest);
    }
  }

  lemma Products(a: int, b: int, d: nat)
    ensures a < b ==> (a + 1) * d <= b * d
  {}

  lemma QuotientIs(x: nat, d: nat, q: nat, r: nat)
    requires d >= 1 && x == q * d + r && r < d
    ensures x / d == q
  {
    Products(x / d, q, d);
    Products(q, x / d, d);
    assert x == x / d * d + x % d;
  }

  lemma OneMorePage(pages: nat, n: nat, limit: nat)
    requires EnoughPages(pages, n, limit) && n > 0
    ensures EnoughPages(pages + 1, n + limit, limit)
  {}

  lemma {:induction false} PagesAreEnough(s: seq<Item>, start: nat, limit: nat)
    requires start <= |s| && limit >= 1
    ensures EnoughPages(|PagesFrom(s, start, limit)|, |s| - start, limit)
    decreases |s| - start
  {
    if PageFrom(s, start, limit).next.Some? {
      PagesAreEnough(s, start + limit, limit);
      OneMorePage(|PagesFrom(s, start + limit, limit)|, |s| - start - limit, limit);
    }
  }

  /** They hold the rest of the list, in order. */
  lemma {:induction false} PagesAreExact(s: seq<Item>, start: nat, limit: nat)
    requires start <= |s| && limit >= 1
    ensures Concat(PagesFrom(s, start, limit)) == s[start..]
    decreases |s| - start
  {
    if PageFrom(s, start, limit).next.Some? {
      PagesAreExact(s, start + limit, limit);
      assert PagesFrom(s, start, limit)[1..] == PagesFrom(s, start + limit, limit);
    }
  }

  /** The cursor before page `i` is good, and from there on the pages are those of the list, one by one;
      the last of them, and no other, has no next cursor. */
  ghost predicate Remaining(s: seq<Item>, limit: nat, pages: seq<Page>, i: nat)
    requires i < |pages| && limit >= 1
  {
    && ResolveCursor(s, CursorAt(pages, i)).Ok?
    && var all := PagesFrom(s, ResolveCursor(s, CursorAt(pages, i)).value, limit);
       pages[i..] <= all && (pages[|pages| - 1].next.None? <==> |pages| - i == |all|)
  }

  lemma PageBefore(s: seq<Item>, limit: nat, pages: seq<Page>, i: nat)
    requires limit >= 1 && i + 1 < |pages| && pages[i].next.Some?
    requires ResolveCursor(s, CursorAt(pages, i)).Ok?
    requires var start := ResolveCursor(s, CursorAt(pages, i)).value;
      pages[i] == PageFrom(s, start, limit) && ResolveCursor(s, CursorAt(pages, i + 1)) == Ok(start + |pages[i].items|)
    requires Remaining(s, limit, pages, i + 1)
    ensures Remaining(s, limit, pages, i)
  {
    PrefixBefore(pages, i, PagesFrom(s, ResolveCursor(s, CursorAt(pages, i + 1)).value, limit));
  }

  lemma PrefixBefore(pages: seq<Page>, i: nat, rest: seq<Page>)
    requires i < |pages| && pages[i + 1..] <= rest
    ensures pages[i..] <= [pages[i]] + rest
  {
    assert pages[i..] == [pages[i]] + pages[i + 1..];
  }

  lemma LastPage(s: seq<Item>, limit: nat, pages: seq<Page>, i: nat)
    requires limit >= 1 && i + 1 == |pages|
    requires ResolveCursor(s, CursorAt(pages, i)).Ok?
    requires pages[i] == PageFrom(s, ResolveCursor(s, CursorAt(pages, i)).value, limit)
    ensures Remaining(s, limit, pages, i)
  {
    assert pages[i..] == [pages[i]];
  }

  /** Following the cursor over one list gives those pages. */
  lemma {:induction false} FollowsPages(s: seq<Item>, lists: seq<seq<Item>>, limit: nat, pages: seq<Page>, i: nat)
    requires Distinct(s) && limit >= 1 && i < |pages|
    requires forall j :: 0 <= j < |s| ==> s[j].id != ""
    requires lists == Repeated(s, |pages|) && forall j :: 0 <= j < |pages| ==> CutAt(lists, limit, pages, j)
    ensures Remaining(s, limit, pages, i)
    decreases |pages| - i
  {
    assert CutAt(lists, limit, pages, i);
    if i + 1 < |pages| {
      assert CutAt(lists, limit, pages, i + 1);
      FindsItem(s, ResolveCursor(s, CursorAt(pages, i)).value + |pages[i].items| - 1);
      FollowsPages(s, lists, limit, pages, i + 1);
      PageBefore(s, limit, pages, i);
    } else {
      LastPage(s, limit, pages, i);
    }
  }

  // ---------------------------------------------------------------- following the cursor

  /** Records are only ever added. */
  ghost predicate Grows(a: Records, b: Records) {
    && (forall e :: e in a.events ==> e in b.events)
    && (forall t :: t in a.retros ==> t in b.retros)
  }

  /** Request `i` meets the records as they are then, and passes on the cursor of the page before. */
  ghost predicate Requested(p: Platform, states: seq<Records>, q: Query, pages: seq<Page>, i: nat)
    requires i < |pages| <= |states|
  {
    && Export(p, states[i], q.(cursor := CursorAt(pages, i))) == Ok(pages[i])
    && (i > 0 ==> pages[i - 1].next.Some? && Grows(states[i - 1], states[i]))
  }

  /** Successive requests with one query, from the start, while records are only added. */
  ghost predicate IsWalk(p: Platform, states: seq<Records>, q: Query, pages: seq<Page>) {
    && pages != [] && |pages| <= |states|
    && (forall i :: 0 <= i < |pages| ==> states[i].UniqueIds())
    && (forall i :: 0 <= i < |pages| ==> Requested(p, states, q, pages, i))
  }

  ghost function SelectedBy(p: Platform, r: Records, q: Query): seq<Item>
    requires BoundsOf(p, q).Ok?
  {
    Selection(p, r, BoundsOf(p, q).value.since, BoundsOf(p, q).value.until)
  }

  lemma SelectionGrows(p: Platform, a: Records, b: Records, q: Query)
    requires p.Collates() && a.UniqueIds() && b.UniqueIds() && Grows(a, b) && BoundsOf(p, q).Ok?
    ensures forall x :: x in SelectedBy(p, a, q) ==> x in SelectedBy(p, b, q)
  {
    SelectionMeans(p, a, BoundsOf(p, q).value.since, BoundsOf(p, q).value.until);
    SelectionMeans(p, b, BoundsOf(p, q).value.since, BoundsOf(p, q).value.until);
    EventItems(a.events);
    EventItems(b.events);
    RetrospectiveItems(b.retros);
    forall x | x in a.Items() ensures x in b.Items() {
      if x in OfRetrospectives(a.retros) {
        var i :| 0 <= i < |a.retros| && OfRetrospectives(a.retros)[i] == x;
        assert a.retros[i] in b.retros;
      }
    }
  }

  lemma ItemsHaveIds(r: Records)
    ensures forall x :: x in r.Items() ==> x.id != ""
  {
    EventItems(r.events);
  }

  /** What each request of a walk selects from. */
  ghost function ListsOf(p: Platform, states: seq<Records>, q: Query, n: nat): seq<seq<Item>>
    requires n <= |states| && BoundsOf(p, q).Ok?
  {
    seq(n, i requires 0 <= i < n => SelectedBy(p, states[i], q))
  }

  lemma BoundsSound(p: Platform, states: seq<Records>, q: Query, pages: seq<Page>)
    requires IsWalk(p, states, q, pages)
    ensures BoundsOf(p, q).Ok? && BoundsOf(p, q).value.limit >= 1
  {
    assert Requested(p, states, q, pages, 0);
    assert BoundsOf(p, q.(cursor := CursorAt(pages, 0))) == BoundsOf(p, q);
  }

  lemma RequestsCut(p: Platform, states: seq<Records>, q: Query, pages: seq<Page>, i: nat)
    requires IsWalk(p, states, q, pages) && i < |pages| && BoundsOf(p, q).Ok?
    ensures CutAt(ListsOf(p, states, q, |pages|), BoundsOf(p, q).value.limit, pages, i)
  {
    assert Requested(p, states, q, pages, i);
    assert BoundsOf(p, q.(cursor := CursorAt(pages, i))) == BoundsOf(p, q);
  }

  lemma {:induction false} SelectedAtTheEnd(p: Platform, states: seq<Records>, q: Query, pages: seq<Page>, i: nat, j: nat)
    requires p.Collates() && IsWalk(p, states, q, pages) && BoundsOf(p, q).Ok? && i <= j < |pages|
    ensures forall x :: x in SelectedBy(p, states[i], q) ==> x in SelectedBy(p, states[j], q)
  {
    if i < j {
      SelectedAtTheEnd(p, states, q, pages, i, j - 1);
      assert Requested(p, states, q, pages, j);
      SelectionGrows(p, states[j - 1], states[j], q);
    }
  }

  /** Places in the longest list order all the shorter ones. */
  lemma RankedBy(p: Platform, s: seq<Item>, whole: seq<Item>)
    requires p.Collates() && Increasing(p, s) && Increasing(p, whole) && Distinct(whole)
    requires forall x :: x in s ==> x in whole && x.id != ""
    ensures Ranked(s, (x: Item) => IndexOf(whole, x.id))
  {
    forall i, j | 0 <= i < j < |s| ensures IndexOf(whole, s[i].id) < IndexOf(whole, s[j].id) {
      PlacedInOrder(p, whole, s[i], s[j]);
    }
  }

  lemma PlacedInOrder(p: Platform, whole: seq<Item>, x: Item, y: Item)
    requires p.Collates() && Increasing(p, whole) && Distinct(whole)
    requires x in whole && y in whole && Less(p, x, y)
    ensures 0 <= IndexOf(whole, x.id) < IndexOf(whole, y.id)
  {
    var a :| 0 <= a < |whole| && whole[a] == x;
    var b :| 0 <= b < |whole| && whole[b] == y;
    if b <= a {
      LessIsTransitive(p, x, y, x);
    }
  }

  lemma SelectionInOrder(p: Platform, r: Records, q: Query)
    requires p.Collates() && r.UniqueIds() && BoundsOf(p, q).Ok?
    ensures Increasing(p, SelectedBy(p, r, q)) && Distinct(SelectedBy(p, r, q))
    ensures forall x :: x in SelectedBy(p, r, q) ==> x.id != ""
  {
    SelectionMeans(p, r, BoundsOf(p, q).value.since, BoundsOf(p, q).value.until);
    ItemsHaveIds(r);
  }

  ghost function RankIn(p: Platform, z: Records, q: Query): Item -> int
    requires BoundsOf(p, q).Ok?
  {
    (x: Item) => IndexOf(SelectedBy(p, z, q), x.id)
  }

  lemma StateRanked(p: Platform, a: Records, z: Records, q: Query)
    requires p.Collates() && a.UniqueIds() && z.UniqueIds() && BoundsOf(p, q).Ok?
    requires forall x :: x in SelectedBy(p, a, q) ==> x in SelectedBy(p, z, q)
    ensures Ranked(SelectedBy(p, a, q), RankIn(p, z, q)) && Distinct(SelectedBy(p, a, q))
  {
    SelectionInOrder(p, a, q);
    SelectionInOrder(p, z, q);
    RankedBy(p, SelectedBy(p, a, q), SelectedBy(p, z, q));
  }

  lemma ListAt(p: Platform, states: seq<Records>, q: Query, n: nat, i: nat)
    requires i < n <= |states| && BoundsOf(p, q).Ok?
    ensures ListsOf(p, states, q, n)[i] == SelectedBy(p, states[i], q)
  {}

  lemma RankedInPlace(lists: seq<seq<Item>>, rank: Item -> int, i: nat, before: seq<Item>, here: seq<Item>)
    requires i < |lists| && lists[i] == here && Ranked(here, rank) && Distinct(here)
    requires i > 0 ==> lists[i - 1] == before && forall x :: x in before ==> x in here
    ensures RankedAt(lists, rank, i)
  {}

  lemma RankedWhenLast(p: Platform, states: seq<Records>, q: Query, pages: seq<Page>, i: nat)
    requires p.Collates() && IsWalk(p, states, q, pages) && BoundsOf(p, q).Ok? && i < |pages|
    ensures Ranked(SelectedBy(p, states[i], q), RankIn(p, states[|pages| - 1], q)) && Distinct(SelectedBy(p, states[i], q))
  {
    SelectedAtTheEnd(p, states, q, pages, i, |pages| - 1);
    StateRanked(p, states[i], states[|pages| - 1], q);
  }

  lemma ListRanked(p: Platform, states: seq<Records>, q: Query, pages: seq<Page>, i: nat)
    requires p.Collates() && IsWalk(p, states, q, pages) && BoundsOf(p, q).Ok? && i < |pages|
    ensures RankedAt(ListsOf(p, states, q, |pages|), RankIn(p, states[|pages| - 1], q), i)
  {
    var previous := if i > 0 then i - 1 else 0;
    RankedWhenLast(p, states, q, pages, i);
    ListAt(p, states, q, |pages|, i);
    ListAt(p, states, q, |pages|, previous);
    SelectedAtTheEnd(p, states, q, pages, previous, i);
    RankedInPlace(ListsOf(p, states, q, |pages|), RankIn(p, states[|pages| - 1], q), i,
                  SelectedBy(p, states[previous], q), SelectedBy(p, states[i], q));
  }

  lemma AllCut(p: Platform, states: seq<Records>, q: Query, pages: seq<Page>)
    requires IsWalk(p, states, q, pages) && BoundsOf(p, q).Ok?
    ensures forall i :: 0 <= i < |pages| ==> CutAt(ListsOf(p, states, q, |pages|), BoundsOf(p, q).value.limit, pages, i)
  {
    forall i | 0 <= i < |pages| ensures CutAt(ListsOf(p, states, q, |pages|), BoundsOf(p, q).value.limit, pages, i) {
      RequestsCut(p, states, q, pages, i);
    }
  }

  lemma WalkFollows(p: Platform, states: seq<Records>, q: Query, pages: seq<Page>)
    requires p.Collates() && IsWalk(p, states, q, pages)
    ensures BoundsOf(p, q).Ok? && BoundsOf(p, q).value.limit >= 1
    ensures Follows(ListsOf(p, states, q, |pages|), RankIn(p, states[|pages| - 1], q), BoundsOf(p, q).value.limit, pages)
  {
    BoundsSound(p, states, q, pages);
    var lists, rank := ListsOf(p, states, q, |pages|), RankIn(p, states[|pages| - 1], q);
    forall i | 0 <= i < |pages| ensures RankedAt(lists, rank, i) {
      ListRanked(p, states, q, pages, i);
    }
    AllCut(p, states, q, pages);
  }

  /** While records are only added, following the cursor returns no item twice. */
  lemma NoItemTwice(p: Platform, states: seq<Records>, q: Query, pages: seq<Page>, i: nat, j: nat, x: Item)
    requires p.Collates() && IsWalk(p, states, q, pages)
    requires i < j < |pages| && x in pages[i].items
    ensures x !in pages[j].items
  {
    WalkFollows(p, states, q, pages);
    NothingTwice(ListsOf(p, states, q, |pages|), RankIn(p, states[|pages| - 1], q), BoundsOf(p, q).value.limit, pages, i, j, x);
  }

  /** When the walk ends, every item that the first request would have selected has been returned. */
  lemma EveryItemReturned(p: Platform, states: seq<Records>, q: Query, pages: seq<Page>, x: Item) returns (j: nat)
    requires p.Collates() && IsWalk(p, states, q, pages) && pages[|pages| - 1].next.None?
    requires BoundsOf(p, q).Ok? && x in SelectedBy(p, states[0], q)
    ensures j < |pages| && x in pages[j].items
  {
    WalkFollows(p, states, q, pages);
    var lists, rank := ListsOf(p, states, q, |pages|), RankIn(p, states[|pages| - 1], q);
    assert RankedAt(lists, rank, 0);
    j := OnSomePage(lists, rank, BoundsOf(p, q).value.limit, pages, 0, x);
  }

  /** While records are only added, a cursor once handed out is always accepted. */
  lemma CursorStaysGood(p: Platform, r: Records, later: Records, q: Query, page: Page)
    requires p.Collates() && r.UniqueIds() && later.UniqueIds() && Grows(r, later)
    requires Export(p, r, q) == Ok(page) && page.next.Some?
    ensures Export(p, later, q.(cursor := page.next)).Ok?
  {
    var q' := q.(cursor := page.next);
    assert BoundsOf(p, q') == BoundsOf(p, q);
    var s := SelectedBy(p, r, q);
    PageIsPart(s, ResolveCursor(s, q.cursor).value, BoundsOf(p, q).value.limit);
    SelectionGrows(p, r, later, q);
    var last := page.items[|page.items| - 1];
    assert last in page.items && last in s && last in SelectedBy(p, later, q);
  }

  /** Over records that stand still every walk, finished or not, goes through the pages of the whole
      selection in order. There are `max(1, ceil(n / limit))` of them, their concatenation is the
      selection, and there is no next cursor exactly on the last. */
  lemma StillWalk(p: Platform, r: Records, q: Query, pages: seq<Page>)
    requires p.Collates() && IsWalk(p, Repeated(r, |pages|), q, pages)
    ensures BoundsOf(p, q).Ok? && BoundsOf(p, q).value.limit >= 1
    ensures var s, limit := SelectedBy(p, r, q), BoundsOf(p, q).value.limit;
      && pages <= PagesFrom(s, 0, limit) && |PagesFrom(s, 0, limit)| == PagesNeeded(|s|, limit)
      && Concat(PagesFrom(s, 0, limit)) == s
      && (pages[|pages| - 1].next.None? <==> |pages| == PagesNeeded(|s|, limit))
  {
    var states := Repeated(r, |pages|);
    BoundsSound(p, states, q, pages);
    var lists, limit, s := ListsOf(p, states, q, |pages|), BoundsOf(p, q).value.limit, SelectedBy(p, r, q);
    AllCut(p, states, q, pages);
    assert states[0].UniqueIds();
    SelectionInOrder(p, r, q);
    ListsStill(p, r, q, |pages|);
    StillPages(s, lists, limit, pages);
  }

  lemma ListsStill(p: Platform, r: Records, q: Query, n: nat)
    requires BoundsOf(p, q).Ok?
    ensures ListsOf(p, Repeated(r, n), q, n) == Repeated(SelectedBy(p, r, q), n)
  {}

  lemma StillPages(s: seq<Item>, lists: seq<seq<Item>>, limit: nat, pages: seq<Page>)
    requires Distinct(s) && limit >= 1 && pages != []
    requires forall x :: x in s ==> x.id != ""
    requires lists == Repeated(s, |pages|) && forall j :: 0 <= j < |pages| ==> CutAt(lists, limit, pages, j)
    ensures pages <= PagesFrom(s, 0, limit) && |PagesFrom(s, 0, limit)| == PagesNeeded(|s|, limit)
    ensures Concat(PagesFrom(s, 0, limit)) == s
    ensures pages[|pages| - 1].next.None? <==> |pages| == PagesNeeded(|s|, limit)
  {
    FollowsPages(s, lists, limit, pages, 0);
    PagesAreExact(s, 0, limit);
    PagesAreEnough(s, 0, limit);
    EnoughIsNeeded(|PagesFrom(s, 0, limit)|, |s|, limit);
    assert pages[0..] == pages && s[0..] == s;
  }

  lemma RequestedBefore(p: Platform, r: Records, q: Query, pages: seq<Page>, page: Page, i: nat)
    requires i < |pages| && Requested(p, Repeated(r, |pages|), q, pages, i)
    ensures Requested(p, Repeated(r, |pages| + 1), q, pages + [page], i)
  {
    assert CursorAt(pages + [page], i) == CursorAt(pages, i);
  }

  lemma RequestedNext(p: Platform, r: Records, q: Query, pages: seq<Page>, page: Page)
    requires pages != [] && pages[|pages| - 1].next.Some?
    requires Export(p, r, q.(cursor := pages[|pages| - 1].next)) == Ok(page)
    ensures Requested(p, Repeated(r, |pages| + 1), q, pages + [page], |pages|)
  {
    assert CursorAt(pages + [page], |pages|) == pages[|pages| - 1].next;
  }

  lemma NextAnswered(p: Platform, r: Records, q: Query, pages: seq<Page>)
    requires p.Collates() && IsWalk(p, Repeated(r, |pages|), q, pages) && pages[|pages| - 1].next.Some?
    ensures Export(p, r, q.(cursor := pages[|pages| - 1].next)).Ok?
  {
    var states, last := Repeated(r, |pages|), |pages| - 1;
    assert Requested(p, states, q, pages, last) && states[last].UniqueIds();
    CursorStaysGood(p, r, r, q.(cursor := CursorAt(pages, last)), pages[last]);
  }

  lemma NextRequest(p: Platform, r: Records, q: Query, pages: seq<Page>) returns (page: Page)
    requires p.Collates() && IsWalk(p, Repeated(r, |pages|), q, pages) && pages[|pages| - 1].next.Some?
    ensures IsWalk(p, Repeated(r, |pages| + 1), q, pages + [page])
  {
    var states, longer := Repeated(r, |pages|), Repeated(r, |pages| + 1);
    NextAnswered(p, r, q, pages);
    page := Export(p, r, q.(cursor := pages[|pages| - 1].next)).value;
    var more := pages + [page];
    assert states[0].UniqueIds();
    forall i | 0 <= i < |more| ensures Requested(p, longer, q, more, i) {
      if i < |pages| {
        RequestedBefore(p, r, q, pages, page, i);
      } else {
        RequestedNext(p, r, q, pages, page);
      }
    }
  }

  /** The first request of a query with sound bounds is always answered. */
  lemma FirstRequest(p: Platform, r: Records, q: Query) returns (page: Page)
    requires r.UniqueIds() && BoundsOf(p, q).Ok?
    ensures IsWalk(p, Repeated(r, 1), q, [page])
  {
    var q' := q.(cursor := CursorAt([], 0));
    assert BoundsOf(p, q') == BoundsOf(p, q);
    page := Export(p, r, q').value;
    assert Requested(p, Repeated(r, 1), q, [page], 0);
  }

  ghost function PagesLeft(p: Platform, r: Records, q: Query, pages: seq<Page>): int {
    if BoundsOf(p, q).Ok? && BoundsOf(p, q).value.limit >= 1
    then PagesNeeded(|SelectedBy(p, r, q)|, BoundsOf(p, q).value.limit) - |pages|
    else 0
  }

  /** And every walk can be finished: each cursor handed out is accepted, so following them comes to an
      end after exactly that many pages. */
  lemma {:induction false} WalkEnds(p: Platform, r: Records, q: Query, pages: seq<Page>) returns (all: seq<Page>)
    requires p.Collates() && IsWalk(p, Repeated(r, |pages|), q, pages)
    ensures BoundsOf(p, q).Ok? && BoundsOf(p, q).value.limit >= 1
    ensures pages <= all && IsWalk(p, Repeated(r, |all|), q, all) && all[|all| - 1].next.None?
    ensures |all| == PagesNeeded(|SelectedBy(p, r, q)|, BoundsOf(p, q).value.limit) && Concat(all) == SelectedBy(p, r, q)
    decreases PagesLeft(p, r, q, pages)
  {
    StillWalk(p, r, q, pages);
    if pages[|pages| - 1].next.None? {
      all := pages;
      assert all == PagesFrom(SelectedBy(p, r, q), 0, BoundsOf(p, q).value.limit);
    } else {
      var page := NextRequest(p, r, q, pages);
      OnePageLess(p, r, q, pages, pages + [page]);
      all := WalkEnds(p, r, q, pages + [page]);
    }
  }

  lemma OnePageLess(p: Platform, r: Records, q: Query, pages: seq<Page>, longer: seq<Page>)
    requires p.Collates() && IsWalk(p, Repeated(r, |longer|), q, longer) && |longer| == |pages| + 1
    ensures 0 <= PagesLeft(p, r, q, longer) < PagesLeft(p, r, q, pages)
  {
    StillWalk(p, r, q, longer);
  }
}
