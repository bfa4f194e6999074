/**
 * Locating the remote resource by a paged listing: `search_resource` in
 * each auto-scaling module. Pages are requested at `start_number` 0, 10,
 * 20, ...; every item is turned into read shape and kept when it matches
 * the identity object; the loop stops at the first empty page, or after a
 * page that leaves more than one match.
 */
module Locator {
  import opened Wrappers
  import opened Json
  import opened Diff
  import opened Query
  import opened Remote

  /** What one page contributes: the listing ended, or these items matched. */
  datatype PageResult = End | Kept(matched: seq<Value>)

  /** Formatting `template` with `start_number` = 10 * j, for each page `j`. */
  function PageFormat(template: string): (urls: nat -> Result<string, string>)
  {
    (j: nat) => Format(template, 10 * j)
  }

  /** The items that survive `fill_read_resp_body` and match, in page order. */
  function FilterMatches(identity: Value, fill: Value -> Result<Value, Error>, items: seq<Value>): (r: Result<seq<Value>, Error>)
    decreases |items|
  {
    if items == [] then Success([])
    else
      match fill(items[0])
      case Failure(e) => Failure(e)
      case Success(f) =>
        match FilterMatches(identity, fill, items[1..])
        case Failure(e) => Failure(e)
        case Success(rest) => Success((if Matches(identity, f) then [f] else []) + rest)
  }

  /**
   * The filter keeps at most the items it was given, and every one it
   * keeps matches the identity object.
   */
  lemma {:induction false} FilterMatchesSound(identity: Value, fill: Value -> Result<Value, Error>, items: seq<Value>)
    ensures var r := FilterMatches(identity, fill, items);
            r.Success? ==> |r.value| <= |items| && forall i :: 0 <= i < |r.value| ==> Matches(identity, r.value[i])
    decreases |items|
  {
    if items != [] && fill(items[0]).Success? {
      FilterMatchesSound(identity, fill, items[1..]);
    }
  }

  /** A single item is kept exactly when it is filled and matches. */
  lemma FilterOne(identity: Value, fill: Value -> Result<Value, Error>, item: Value)
    ensures fill(item).Failure? ==> FilterMatches(identity, fill, [item]) == Failure(fill(item).error)
    ensures fill(item).Success? ==>
              FilterMatches(identity, fill, [item]).Success? &&
              (FilterMatches(identity, fill, [item]).value == [] <==> !Matches(identity, fill(item).value))
  {
    assert [item][1..] == [];
  }

  /**
   * The URL of page `j`, from `urls`, which gives the outcome of formatting
   * the link with each page number (see `PageFormat`).
   */
  function PageUrl(urls: nat -> Result<string, string>, j: nat): (r: Result<string, Error>)
  {
    match urls(j)
    case Success(u) => Success(u)
    case Failure(f) => Failure(FormatError(f))
  }

  /** The requests reading page `j` issues: one, unless formatting its URL raised. */
  function PageRequests(urls: nat -> Result<string, string>, j: nat): (calls: seq<Request>)
    ensures |calls| <= 1
    ensures PageUrl(urls, j).Success? ==> calls == [ListPage(PageUrl(urls, j).value)]
    ensures PageUrl(urls, j).Failure? ==> calls == []
  {
    if PageUrl(urls, j).Success? then [ListPage(PageUrl(urls, j).value)] else []
  }

  /**
   * Reading page `j`: a provider error fails the search, a falsy page ends
   * it, a page that is not a list (or an item that is not an object) is a
   * malformed response, and otherwise the matching items are kept.
   */
  function ReadPage(respond: Request -> Result<Value, string>, urls: nat -> Result<string, string>, identity: Value,
                    fill: Value -> Result<Value, Error>, j: nat): (r: Result<PageResult, Error>)
    ensures r.Success? ==> PageUrl(urls, j).Success?
  {
    match PageUrl(urls, j)
    case Failure(e) => Failure(e)
    case Success(url) =>
      match respond(ListPage(url))
      case Failure(e) => Failure(ApiError("list", e))
      case Success(body) =>
        if !Truthy(body) then Success(End)
        else if !body.List? then Failure(MalformedResponse)
        else
          match FilterMatches(identity, fill, body.items)
          case Failure(e) => Failure(e)
          case Success(m) => Success(Kept(m))
  }

  // ----- the paging rule, over any listing ------------------------------------

  /** Reading one page: its outcome and the requests that issued. */
  datatype Page = Page(result: Result<PageResult, Error>, calls: seq<Request>)

  /** The search stops at this page (an error, or an empty page). */
  predicate Last(p: Page) {
    p.result.Failure? || p.result.value.End?
  }

  /**
   * The search stops at page `b` at the latest: page `b` is its last, or
   * the pages up to and including it match more than one item.
   */
  ghost predicate StopsBy(pages: nat -> Page, b: nat) {
    Last(pages(b)) || |MatchesBefore(pages, b + 1)| > 1
  }

  /** The search stops somewhere. */
  ghost predicate Finite(pages: nat -> Page) {
    exists b: nat :: StopsBy(pages, b)
  }

  ghost function EndOf(pages: nat -> Page): (b: nat)
    requires Finite(pages)
    ensures StopsBy(pages, b)
  {
    var b: nat :| StopsBy(pages, b); b
  }

  /**
   * The search from page `j` on, having matched `acc`: its result and the
   * requests it issues, in order. (`acc` holds at least as many matches as
   * the pages before `j`, so the search stops by page `EndOf(pages)`.)
   */
  ghost function Collect(pages: nat -> Page, j: nat, acc: seq<Value>): (Result<seq<Value>, Error>, seq<Request>)
    requires Finite(pages) && j <= EndOf(pages) && |MatchesBefore(pages, j)| <= |acc|
    decreases EndOf(pages) - j
  {
    var p := pages(j);
    match p.result
    case Failure(e) => (Failure(e), p.calls)
    case Success(End) => (Success(acc), p.calls)
    case Success(Kept(m)) =>
      if |acc + m| > 1 then (Success(acc + m), p.calls)
      else
        assert MatchesBefore(pages, j + 1) == MatchesBefore(pages, j) + m;
        var next := Collect(pages, j + 1, acc + m);
        (next.0, p.calls + next.1)
  }

  /** After a page whose matches leave at most one, the search goes on with the next page. */
  lemma CollectNext(pages: nat -> Page, j: nat, acc: seq<Value>, m: seq<Value>)
    requires Finite(pages) && j <= EndOf(pages) && |MatchesBefore(pages, j)| <= |acc|
    requires pages(j).result == Success(Kept(m)) && |acc + m| <= 1
    ensures j + 1 <= EndOf(pages) && |MatchesBefore(pages, j + 1)| <= |acc + m|
    ensures var next := Collect(pages, j + 1, acc + m);
            Collect(pages, j, acc) == (next.0, pages(j).calls + next.1)
  {
    assert !Last(pages(j));
    assert MatchesBefore(pages, j + 1) == MatchesBefore(pages, j) + m;
  }

  /**
   * The bookkeeping of the paging loop: when the search from page `j`
   * (after `sent`) is `goal`, and page `j` leaves at most one match, the
   * search from page `j + 1` (after `sent` and page `j`'s request) is still
   * `goal`.
   */
  lemma CollectAdvance(pages: nat -> Page, j: nat, acc: seq<Value>, m: seq<Value>, sent: seq<Request>,
                       goal: (Result<seq<Value>, Error>, seq<Request>))
    requires Finite(pages) && j <= EndOf(pages) && |MatchesBefore(pages, j)| <= |acc|
    requires pages(j).result == Success(Kept(m)) && |acc + m| <= 1
    requires goal.0 == Collect(pages, j, acc).0 && goal.1 == sent + Collect(pages, j, acc).1
    ensures j + 1 <= EndOf(pages) && |MatchesBefore(pages, j + 1)| <= |acc + m|
    ensures goal.0 == Collect(pages, j + 1, acc + m).0
    ensures goal.1 == (sent + pages(j).calls) + Collect(pages, j + 1, acc + m).1
  {
    CollectNext(pages, j, acc, m);
    var next := Collect(pages, j + 1, acc + m);
    AppendAssoc(sent, pages(j).calls, next.1);
  }

  /**
   * The other half: when page `j` stops the search, `goal` is its outcome,
   * and its requests end with page `j`'s.
   */
  lemma CollectStop(pages: nat -> Page, j: nat, acc: seq<Value>, sent: seq<Request>,
                    goal: (Result<seq<Value>, Error>, seq<Request>))
    requires Finite(pages) && j <= EndOf(pages) && |MatchesBefore(pages, j)| <= |acc|
    requires goal.0 == Collect(pages, j, acc).0 && goal.1 == sent + Collect(pages, j, acc).1
    ensures var p := pages(j);
            (p.result.Failure? ==> goal == (Failure(p.result.error), sent + p.calls)) &&
            (p.result.Success? && p.result.value.End? ==> goal == (Success(acc), sent + p.calls)) &&
            (p.result.Success? && p.result.value.Kept? && |acc + p.result.value.matched| > 1 ==>
               goal == (Success(acc + p.result.value.matched), sent + p.calls))
  {
  }

  /** When every page's items match `identity`, so does every item the search returns. */
  lemma {:induction false} CollectMatches(pages: nat -> Page, identity: Value, j: nat, acc: seq<Value>)
    requires Finite(pages) && j <= EndOf(pages) && |MatchesBefore(pages, j)| <= |acc|
    requires forall k: nat :: pages(k).result.Success? && pages(k).result.value.Kept? ==>
               forall i :: 0 <= i < |pages(k).result.value.matched| ==> Matches(identity, pages(k).result.value.matched[i])
    requires forall i :: 0 <= i < |acc| ==> Matches(identity, acc[i])
    ensures var r := Collect(pages, j, acc).0;
            r.Success? ==> forall i :: 0 <= i < |r.value| ==> Matches(identity, r.value[i])
    decreases EndOf(pages) - j
  {
    var p := pages(j);
    if p.result.Success? && p.result.value.Kept? && |acc + p.result.value.matched| <= 1 {
      CollectNext(pages, j, acc, p.result.value.matched);
      CollectMatches(pages, identity, j + 1, acc + p.result.value.matched);
    }
  }

  /**
   * When every page issues at most one request, and exactly one when it is
   * read, request `i` of the search from page `j` is page `j + i`'s.
   */
  lemma {:induction false} CollectRequests(pages: nat -> Page, j: nat, acc: seq<Value>)
    requires Finite(pages) && j <= EndOf(pages) && |MatchesBefore(pages, j)| <= |acc|
    requires forall k: nat :: |pages(k).calls| <= 1 && (pages(k).result.Success? ==> |pages(k).calls| == 1)
    ensures var calls := Collect(pages, j, acc).1;
            forall i :: 0 <= i < |calls| ==> pages(j + i).calls == [calls[i]]
    decreases EndOf(pages) - j
  {
    var calls := Collect(pages, j, acc).1;
    var p := pages(j);
    if p.result.Success? && p.result.value.Kept? && |acc + p.result.value.matched| <= 1 {
      var m := p.result.value.matched;
      CollectNext(pages, j, acc, m);
      CollectRequests(pages, j + 1, acc + m);
      var next := Collect(pages, j + 1, acc + m).1;
      assert calls == p.calls + next;
      RequestsShift(pages, j, calls, next);
    } else {
      assert calls == p.calls;
      assert |calls| <= 1;
    }
  }

  /** Page `j`'s one request, followed by requests of pages `j + 1`, `j + 2`, … in turn. */
  lemma RequestsShift(pages: nat -> Page, j: nat, calls: seq<Request>, next: seq<Request>)
    requires |pages(j).calls| == 1 && calls == pages(j).calls + next
    requires forall i :: 0 <= i < |next| ==> pages(j + 1 + i).calls == [next[i]]
    ensures forall i :: 0 <= i < |calls| ==> pages(j + i).calls == [calls[i]]
  {
    forall i | 0 <= i < |calls|
      ensures pages(j + i).calls == [calls[i]]
    {
      if i > 0 {
        assert calls[i] == next[i - 1];
        assert j + i == j + 1 + (i - 1);
      }
    }
  }

  /** When page `k` issues `PageRequests(urls, k)`, request `i` of the search lists URL `i`. */
  lemma CollectListsUrls(pages: nat -> Page, urls: nat -> Result<string, string>)
    requires Finite(pages)
    requires forall k: nat :: pages(k).calls == PageRequests(urls, k) && (pages(k).result.Success? ==> |pages(k).calls| == 1)
    ensures var calls := Collect(pages, 0, []).1;
            forall i :: 0 <= i < |calls| ==> urls(i).Success? && calls[i] == ListPage(urls(i).value)
  {
    var calls := Collect(pages, 0, []).1;
    CollectRequests(pages, 0, []);
    assert forall i :: 0 <= i < |Collect(pages, 0, []).1| ==> pages(0 + i).calls == [Collect(pages, 0, []).1[i]];
    forall i | 0 <= i < |calls|
      ensures urls(i).Success? && calls[i] == ListPage(urls(i).value)
    {
      assert pages(0 + i).calls == [calls[i]];
      assert PageRequests(urls, i) == [calls[i]];
      PageRequestsOne(urls, i, calls[i]);
    }
  }

  /** The matches page `k` contributes (none unless it listed items). */
  function PageMatches(p: Page): seq<Value> {
    if p.result.Success? && p.result.value.Kept? then p.result.value.matched else []
  }

  /** The matches of pages 0 .. k - 1, in order. */
  ghost function MatchesBefore(pages: nat -> Page, k: nat): seq<Value> {
    if k == 0 then [] else MatchesBefore(pages, k - 1) + PageMatches(pages(k - 1))
  }

  /** The search reached page `j`: pages 0 .. j - 1 listed items, and matched at most one item together. */
  ghost predicate Reached(pages: nat -> Page, j: nat) {
    (forall i: nat :: i < j ==> pages(i).result.Success? && pages(i).result.value.Kept?) &&
    |MatchesBefore(pages, j)| <= 1
  }

  /** The requests of pages 0 .. k - 1, in order. */
  ghost function CallsBefore(pages: nat -> Page, k: nat): seq<Request> {
    if k == 0 then [] else CallsBefore(pages, k - 1) + pages(k - 1).calls
  }

  /** Later pages only add matches. */
  lemma {:induction false} MatchesBeforeGrows(pages: nat -> Page, i: nat, j: nat)
    requires i <= j
    ensures |MatchesBefore(pages, i)| <= |MatchesBefore(pages, j)|
    decreases j - i
  {
    if i < j {
      MatchesBeforeGrows(pages, i, j - 1);
    }
  }

  /** When pages 0 .. j - 1 listed items and matched at most one, the search has not stopped before page `j`. */
  lemma NotStoppedBefore(pages: nat -> Page, j: nat)
    requires Finite(pages)
    requires Reached(pages, j)
    ensures j <= EndOf(pages)
  {
    var b := EndOf(pages);
    if b < j {
      assert !Last(pages(b));
      MatchesBeforeGrows(pages, b + 1, j);
    }
  }

  /**
   * The search from page 0 is, once pages 0 .. j - 1 listed items and
   * matched at most one, the search from page `j` with their matches,
   * after their requests.
   */
  lemma {:induction false} CollectFromStart(pages: nat -> Page, j: nat)
    requires Finite(pages)
    requires Reached(pages, j)
    ensures j <= EndOf(pages)
    ensures var rest := Collect(pages, j, MatchesBefore(pages, j));
            Collect(pages, 0, []) == (rest.0, CallsBefore(pages, j) + rest.1)
  {
    NotStoppedBefore(pages, j);
    if j > 0 {
      MatchesBeforeGrows(pages, j - 1, j);
      CollectFromStart(pages, j - 1);
      var m := pages(j - 1).result.value.matched;
      assert MatchesBefore(pages, j) == MatchesBefore(pages, j - 1) + m;
      CollectAdvance(pages, j - 1, MatchesBefore(pages, j - 1), m, CallsBefore(pages, j - 1), Collect(pages, 0, []));
      assert CallsBefore(pages, j) == CallsBefore(pages, j - 1) + pages(j - 1).calls;
    } else {
      assert MatchesBefore(pages, 0) == [] && CallsBefore(pages, 0) == [];
      assert [] + Collect(pages, 0, []).1 == Collect(pages, 0, []).1;
    }
  }

  /**
   * The search from page 0, once pages 0 .. j - 1 listed items and matched
   * at most one, ends at page `j` when page `j` fails, is empty or brings
   * the matches above one.
   */
  lemma CollectEndsAt(pages: nat -> Page, j: nat)
    requires Finite(pages)
    requires Reached(pages, j)
    ensures var p := pages(j);
            var acc := MatchesBefore(pages, j);
            var sent := CallsBefore(pages, j) + p.calls;
            (p.result.Failure? ==> Collect(pages, 0, []) == (Failure(p.result.error), sent)) &&
            (p.result.Success? && p.result.value.End? ==> Collect(pages, 0, []) == (Success(acc), sent)) &&
            (p.result.Success? && p.result.value.Kept? && |acc + p.result.value.matched| > 1 ==>
               Collect(pages, 0, []) == (Success(acc + p.result.value.matched), sent))
  {
    CollectFromStart(pages, j);
    CollectStop(pages, j, MatchesBefore(pages, j), CallsBefore(pages, j), Collect(pages, 0, []));
  }

  /**
   * Otherwise page `j` brings the matches to at most one, and the search
   * goes on at page `j + 1`, with one more listed page behind it.
   */
  lemma CollectGoesOn(pages: nat -> Page, j: nat)
    requires Finite(pages)
    requires Reached(pages, j)
    requires pages(j).result.Success? && pages(j).result.value.Kept?
    requires |MatchesBefore(pages, j) + pages(j).result.value.matched| <= 1
    ensures MatchesBefore(pages, j + 1) == MatchesBefore(pages, j) + pages(j).result.value.matched
    ensures CallsBefore(pages, j + 1) == CallsBefore(pages, j) + pages(j).calls
    ensures Reached(pages, j + 1) && j + 1 <= EndOf(pages)
  {
    NotStoppedBefore(pages, j + 1);
  }

  /**
   * The search stopped at page `last` with result `r`: every page before it
   * listed items, and all of them together matched at most one item; page
   * `last` was read, and it was either empty (`r` is every match before
   * it) or listed items that brought the matches above one (`r` is every
   * match up to it).
   */
  ghost predicate StopsAt(pages: nat -> Page, last: nat, r: seq<Value>) {
    Reached(pages, last) &&
    pages(last).result.Success? &&
    (pages(last).result.value.End? ==> r == MatchesBefore(pages, last)) &&
    (pages(last).result.value.Kept? ==> r == MatchesBefore(pages, last + 1) && |r| > 1)
  }

  /** A page read after listed pages that matched at most one item, which ends the search there. */
  lemma StopsHere(pages: nat -> Page, j: nat, r: seq<Value>)
    requires Reached(pages, j)
    requires pages(j).result.Success?
    requires pages(j).result.value.End? ==> r == MatchesBefore(pages, j)
    requires pages(j).result.value.Kept? ==>
               r == MatchesBefore(pages, j) + pages(j).result.value.matched && |r| > 1
    ensures StopsAt(pages, j, r)
  {
    assert MatchesBefore(pages, j + 1) == MatchesBefore(pages, j) + PageMatches(pages(j));
  }

  lemma {:induction false} CollectStops(pages: nat -> Page, j: nat)
    requires Finite(pages) && j <= EndOf(pages)
    requires forall k: nat :: |pages(k).calls| <= 1 && (pages(k).result.Success? ==> |pages(k).calls| == 1)
    requires Reached(pages, j)
    ensures var c := Collect(pages, j, MatchesBefore(pages, j)); var r, calls := c.0, c.1;
            r.Success? ==> |calls| >= 1 && StopsAt(pages, j + |calls| - 1, r.value)
    decreases EndOf(pages) - j
  {
    var acc := MatchesBefore(pages, j);
    var c := Collect(pages, j, acc);
    var r, calls := c.0, c.1;
    var p := pages(j);
    if r.Success? {
      assert p.result.Success?;
      var m := PageMatches(p);
      if p.result.value.End? || |acc + m| > 1 {
        var v := if p.result.value.End? then acc else acc + m;
        assert r.value == v && calls == p.calls && j + |calls| - 1 == j;
        StopsHere(pages, j, v);
      } else {
        CollectGoesOn(pages, j);
        CollectNext(pages, j, acc, m);
        CollectStops(pages, j + 1);
        var next := Collect(pages, j + 1, acc + m);
        assert calls == p.calls + next.1 && r == next.0 && |next.1| >= 1;
        assert j + |calls| - 1 == (j + 1) + |next.1| - 1;
      }
    }
  }

  /** The stopping rule for the search from page 0. */
  lemma CollectStopsFromStart(pages: nat -> Page)
    requires Finite(pages)
    requires forall k: nat :: |pages(k).calls| <= 1 && (pages(k).result.Success? ==> |pages(k).calls| == 1)
    ensures var (r, calls) := Collect(pages, 0, []);
            r.Success? ==> |calls| >= 1 && StopsAt(pages, |calls| - 1, r.value)
  {
    assert MatchesBefore(pages, 0) == [];
    CollectStops(pages, 0);
  }

  // ----- the listing of the provider --------------------------------------------

  /** Reading page `j` of the provider's listing. */
  function ReadPageAt(respond: Request -> Result<Value, string>, urls: nat -> Result<string, string>, identity: Value,
                      fill: Value -> Result<Value, Error>, j: nat): (p: Page)
    ensures |p.calls| <= 1 && (p.result.Success? ==> |p.calls| == 1)
  {
    Page(ReadPage(respond, urls, identity, fill, j), PageRequests(urls, j))
  }

  function Listing(respond: Request -> Result<Value, string>, urls: nat -> Result<string, string>, identity: Value,
                   fill: Value -> Result<Value, Error>): nat -> Page
  {
    (j: nat) => ReadPageAt(respond, urls, identity, fill, j)
  }

  /**
   * The search of the provider's listing stops: some page is empty (or
   * fails), or the pages up to it match more than one item.
   */
  ghost predicate ListingEnds(respond: Request -> Result<Value, string>, urls: nat -> Result<string, string>, identity: Value,
                              fill: Value -> Result<Value, Error>)
  {
    Finite(Listing(respond, urls, identity, fill))
  }

  /** `search_resource`: the matches it returns (or its error), and the requests it issues. */
  ghost function Search(respond: Request -> Result<Value, string>, urls: nat -> Result<string, string>, identity: Value,
                        fill: Value -> Result<Value, Error>): (Result<seq<Value>, Error>, seq<Request>)
    requires ListingEnds(respond, urls, identity, fill)
  {
    Collect(Listing(respond, urls, identity, fill), 0, [])
  }

  /** Every item a page keeps matches the identity object. */
  lemma ReadPageMatches(respond: Request -> Result<Value, string>, urls: nat -> Result<string, string>, identity: Value,
                        fill: Value -> Result<Value, Error>, j: nat)
    ensures var r := ReadPage(respond, urls, identity, fill, j);
            r.Success? && r.value.Kept? ==> forall i :: 0 <= i < |r.value.matched| ==> Matches(identity, r.value.matched[i])
  {
    var r := PageUrl(urls, j);
    if r.Success? {
      var body := respond(ListPage(r.value));
      if body.Success? && body.value.List? {
        FilterMatchesSound(identity, fill, body.value.items);
      }
    }
  }

  /** Every item the search returns matches the identity object. */
  lemma SearchMatches(respond: Request -> Result<Value, string>, urls: nat -> Result<string, string>, identity: Value,
                      fill: Value -> Result<Value, Error>)
    requires ListingEnds(respond, urls, identity, fill)
    ensures var r := Search(respond, urls, identity, fill).0;
            r.Success? ==> forall i :: 0 <= i < |r.value| ==> Matches(identity, r.value[i])
  {
    var pages := Listing(respond, urls, identity, fill);
    forall k: nat
      ensures pages(k).result.Success? && pages(k).result.value.Kept? ==>
                forall i :: 0 <= i < |pages(k).result.value.matched| ==> Matches(identity, pages(k).result.value.matched[i])
    {
      ReadPageMatches(respond, urls, identity, fill, k);
    }
    CollectMatches(pages, identity, 0, []);
  }

  /** Request `i` of the search lists page `i`, at the URL formatted for it. */
  lemma SearchRequests(respond: Request -> Result<Value, string>, urls: nat -> Result<string, string>, identity: Value,
                       fill: Value -> Result<Value, Error>)
    requires ListingEnds(respond, urls, identity, fill)
    ensures var calls := Search(respond, urls, identity, fill).1;
            forall i :: 0 <= i < |calls| ==> urls(i).Success? && calls[i] == ListPage(urls(i).value)
  {
    var pages := Listing(respond, urls, identity, fill);
    forall k: nat
      ensures pages(k).calls == PageRequests(urls, k) && (pages(k).result.Success? ==> |pages(k).calls| == 1)
    {
      ListingPage(respond, urls, identity, fill, k);
    }
    CollectListsUrls(pages, urls);
  }

  /** Page `k` of the listing issues the requests `PageRequests` says. */
  lemma ListingPage(respond: Request -> Result<Value, string>, urls: nat -> Result<string, string>, identity: Value,
                    fill: Value -> Result<Value, Error>, k: nat)
    ensures var p := Listing(respond, urls, identity, fill)(k);
            |p.calls| <= 1 && (p.result.Success? ==> |p.calls| == 1) && p.calls == PageRequests(urls, k)
  {
    assert Listing(respond, urls, identity, fill)(k) == ReadPageAt(respond, urls, identity, fill, k);
  }

  /** A page that issues a request lists the URL formatted for it. */
  lemma PageRequestsOne(urls: nat -> Result<string, string>, k: nat, c: Request)
    requires PageRequests(urls, k) == [c]
    ensures urls(k).Success? && c == ListPage(urls(k).value)
  {
  }

  /** The stopping rule of `search_resource`, for the whole search. */
  lemma SearchStops(respond: Request -> Result<Value, string>, urls: nat -> Result<string, string>, identity: Value,
                    fill: Value -> Result<Value, Error>)
    requires ListingEnds(respond, urls, identity, fill)
    ensures var (r, calls) := Search(respond, urls, identity, fill);
            r.Success? ==> |calls| >= 1 && StopsAt(Listing(respond, urls, identity, fill), |calls| - 1, r.value)
  {
    var pages := Listing(respond, urls, identity, fill);
    forall k: nat
      ensures |pages(k).calls| <= 1 && (pages(k).result.Success? ==> |pages(k).calls| == 1)
    {
      ListingPage(respond, urls, identity, fill, k);
    }
    CollectStopsFromStart(pages);
  }

  // ----- the loops ------------------------------------------------------------

  /** One step of the per-item loop: item `i` is filled and kept if it matches. */
  lemma FilterMatchesStep(identity: Value, fill: Value -> Result<Value, Error>, items: seq<Value>, i: nat, acc: seq<Value>)
    requires i < |items|
    ensures fill(items[i]).Failure? ==>
      AppendTo(acc, FilterMatches(identity, fill, items[i..])) == Failure(fill(items[i]).error)
    ensures fill(items[i]).Success? ==>
      var f := fill(items[i]).value;
      AppendTo(acc, FilterMatches(identity, fill, items[i..]))
        == AppendTo(acc + (if Matches(identity, f) then [f] else []), FilterMatches(identity, fill, items[i + 1..]))
  {
    assert items[i..][1..] == items[i + 1..];
    if fill(items[i]).Success? {
      var f := fill(items[i]).value;
      var rest := FilterMatches(identity, fill, items[i + 1..]);
      if rest.Success? {
        assert acc + ((if Matches(identity, f) then [f] else []) + rest.value)
            == (acc + (if Matches(identity, f) then [f] else [])) + rest.value;
      }
    }
  }

  function AppendTo(xs: seq<Value>, r: Result<seq<Value>, Error>): (q: Result<seq<Value>, Error>)
    ensures q.Success? <==> r.Success?
    ensures q.Failure? ==> q == r
    ensures q.Success? ==> q.value == xs + r.value
  {
    if r.Success? then Success(xs + r.value) else r
  }

  /**
   * The per-item loop of one page: each item through `fill_read_resp_body`,
   * kept when it matches the identity object.
   */
  method MatchItems(items: seq<Value>, identity: Value, fill: Value -> Result<Value, Error>)
      returns (r: Result<seq<Value>, Error>)
    ensures r == FilterMatches(identity, fill, items)
  {
    var acc := [];
    var i := 0;
    assert items[0..] == items;
    assert AppendTo(acc, FilterMatches(identity, fill, items)) == FilterMatches(identity, fill, items) by {
      if FilterMatches(identity, fill, items).Success? {
        assert [] + FilterMatches(identity, fill, items).value == FilterMatches(identity, fill, items).value;
      }
    }
    while i < |items|
      invariant 0 <= i <= |items|
      invariant FilterMatches(identity, fill, items) == AppendTo(acc, FilterMatches(identity, fill, items[i..]))
    {
      FilterMatchesStep(identity, fill, items, i, acc);
      var f := fill(items[i]);
      if f.Failure? {
        return Failure(f.error);
      }
      if Matches(identity, f.value) {
        acc := acc + [f.value];
      } else {
        assert acc + [] == acc;
      }
      i := i + 1;
    }
    assert items[i..] == [];
    assert acc + [] == acc;
    return Success(acc);
  }

  /**
   * One pass of the loop body up to the matching: format, list, check,
   * filter. Over a listing `pages` whose page `k` is what reading page `k`
   * gives, it yields page `j`'s outcome and logs exactly page `j`'s requests.
   */
  method FetchPage(t: Transport, template: string, start: nat, ghost j: nat, identity: Value,
                   fill: Value -> Result<Value, Error>, ghost pages: nat -> Page) returns (page: Result<PageResult, Error>)
    requires start == 10 * j
    requires forall k: nat {:trigger ReadPageAt(t.respond, PageFormat(template), identity, fill, k)} ::
               ReadPageAt(t.respond, PageFormat(template), identity, fill, k) == pages(k)
    modifies t`log
    ensures pages(j).result == page
    ensures t.log == old(t.log) + pages(j).calls
  {
    ghost var read := ReadPageAt(t.respond, PageFormat(template), identity, fill, j);
    var url := Format(template, start);
    if url.Failure? {
      return Failure(FormatError(url.error));
    }
    var r := t.Send(ListPage(url.value));
    if r.Failure? {
      return Failure(ApiError("list", r.error));
    }
    if !Truthy(r.value) {
      return Success(End);
    }
    if !r.value.List? {
      return Failure(MalformedResponse);
    }
    var m := MatchItems(r.value.items, identity, fill);
    if m.Failure? {
      return Failure(m.error);
    }
    return Success(Kept(m.value));
  }

  lemma AppendAssoc<T>(a: seq<T>, b: seq<T>, c: seq<T>)
    ensures (a + b) + c == a + (b + c)
  {
  }

  /**
   * The paging loop of `search_resource`, over a listing `pages` whose page
   * `k` is what reading page `k` of the provider gives; it computes the
   * search `Collect` specifies from page 0.
   */
  method SearchPages(t: Transport, template: string, identity: Value, fill: Value -> Result<Value, Error>,
                     ghost pages: nat -> Page)
      returns (r: Result<seq<Value>, Error>)
    requires Finite(pages)
    requires forall k: nat {:trigger ReadPageAt(t.respond, PageFormat(template), identity, fill, k)} ::
               ReadPageAt(t.respond, PageFormat(template), identity, fill, k) == pages(k)
    modifies t`log
    ensures r == Collect(pages, 0, []).0
    ensures t.log == old(t.log) + Collect(pages, 0, []).1
  {
    ghost var log0 := t.log;
    ghost var bound := EndOf(pages);
    ghost var j: nat := 0;
    var result: seq<Value> := [];
    var start: nat := 0;
    while true
      invariant start == 10 * j && j <= bound
      invariant Reached(pages, j) && result == MatchesBefore(pages, j)
      invariant t.log == log0 + CallsBefore(pages, j)
      decreases bound - j
    {
      ghost var sent := CallsBefore(pages, j);
      var page := FetchPage(t, template, start, j, identity, fill, pages);
      AppendAssoc(log0, sent, pages(j).calls);
      if page.Failure? || page.value.End? || |result + page.value.matched| > 1 {
        CollectEndsAt(pages, j);
        if page.Failure? {
          return Failure(page.error);
        }
        if page.value.End? {
          return Success(result);
        }
        return Success(result + page.value.matched);
      }
      CollectGoesOn(pages, j);
      result := result + page.value.matched;
      start := start + 10;
      j := j + 1;
    }
  }

  /** `search_resource`: the paging loop over the provider's listing, proved to compute `Search`. */
  method SearchResource(t: Transport, template: string, identity: Value, fill: Value -> Result<Value, Error>)
      returns (r: Result<seq<Value>, Error>)
    requires ListingEnds(t.respond, PageFormat(template), identity, fill)
    modifies t`log
    ensures r == Search(t.respond, PageFormat(template), identity, fill).0
    ensures t.log == old(t.log) + Search(t.respond, PageFormat(template), identity, fill).1
  {
    r := SearchPages(t, template, identity, fill, Listing(t.respond, PageFormat(template), identity, fill));
  }
}
