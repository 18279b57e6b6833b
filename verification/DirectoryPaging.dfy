/**
 The organisation directory: candidate ids come from effective grants, entries are
 filtered and sorted, and a client follows the id cursor each page names.

 Display names are compared after Unicode lower-casing, which is the parameter
 `lower`: nothing below depends on what it does.
 */
module DirectoryPaging {
  import opened Common
  import opened Text
  import opened Sorting

  datatype Entry = Entry(
    id: string, displayName: string, status: string, verification: string, source: string, jurisdiction: string)

  /** What selects and orders the listing, apart from the cursor and page size. */
  datatype Criteria = Criteria(query: string, desc: bool, verification: string, status: string)

  datatype Filter = Filter(criteria: Criteria, after: string, limit: nat)

  datatype Page = Page(pageSize: nat, desc: bool, totalVisible: nat, items: seq<Entry>, nextAfter: string)

  predicate Matches(e: Entry, c: Criteria, lower: string -> string) {
    && (c.query == "" || Contains(lower(e.displayName), lower(c.query)))
    && (c.verification == "" || e.verification == c.verification)
    && (c.status == "" || e.status == c.status)
  }

  function Matching(input: seq<Entry>, c: Criteria, lower: string -> string): seq<Entry> {
    if input == [] then []
    else
      var n := |input| - 1;
      Matching(input[..n], c, lower) + if Matches(input[n], c, lower) then [input[n]] else []
  }

  /** The comparator: by lower-cased name in the chosen direction, ties always by ascending id. */
  predicate Before(a: Entry, b: Entry, desc: bool, lower: string -> string) {
    var left, right := lower(a.displayName), lower(b.displayName);
    if left == right then Less(a.id, b.id)
    else if desc then Less(right, left)
    else Less(left, right)
  }

  function Order(desc: bool, lower: string -> string): (Entry, Entry) -> bool {
    (a: Entry, b: Entry) => Before(a, b, desc, lower)
  }

  /** The whole visible listing, of which every page is a slice. */
  function Listing(input: seq<Entry>, c: Criteria, lower: string -> string): seq<Entry> {
    Sort(Order(c.desc, lower), Matching(input, c, lower))
  }

  /** The first position whose id equals `after` up to case, or the length. */
  function Position(list: seq<Entry>, after: string): (i: nat)
    ensures i <= |list|
  {
    if list == [] then 0
    else if Lower(list[0].id) == Lower(after) then 0
    else 1 + Position(list[1..], after)
  }

  function Slice(list: seq<Entry>, start: nat, desc: bool, limit: nat): Page
    requires start <= |list|
  {
    var end := if start + limit > |list| then |list| else start + limit;
    Page(limit, desc, |list|, list[start..end],
         if start < end < |list| then list[end - 1].id else "")
  }

  /** One page of a listing, or nothing when the cursor is not part of it. */
  function Reply(list: seq<Entry>, desc: bool, after: string, limit: nat): Option<Page> {
    if after == "" then Some(Slice(list, 0, desc, limit))
    else
      var at := Position(list, after);
      if at == |list| then None else Some(Slice(list, at + 1, desc, limit))
  }

  function Request(input: seq<Entry>, f: Filter, lower: string -> string): Option<Page> {
    Reply(Listing(input, f.criteria, lower), f.criteria.desc, f.after, f.limit)
  }

  method FilterEntries(input: seq<Entry>, c: Criteria, lower: string -> string) returns (matched: seq<Entry>)
    ensures matched == Matching(input, c, lower)
  {
    matched := [];
    for i := 0 to |input|
      invariant matched == Matching(input[..i], c, lower)
    {
      assert input[..i + 1][..i] == input[..i];
      var item := input[i];
      if c.query != "" && !Contains(lower(item.displayName), lower(c.query)) {
        continue;
      }
      if c.verification != "" && item.verification != c.verification {
        continue;
      }
      if c.status != "" && item.status != c.status {
        continue;
      }
      matched := matched + [item];
    }
    assert input[..|input|] == input;
  }

  method FindCursor(list: seq<Entry>, after: string) returns (at: nat)
    ensures at == Position(list, after)
  {
    at := 0;
    while at < |list| && Lower(list[at].id) != Lower(after)
      invariant at <= |list|
      invariant at + Position(list[at..], after) == Position(list, after)
    {
      at := at + 1;
    }
  }

  method CutPage(list: seq<Entry>, start: nat, desc: bool, limit: nat) returns (out: Page)
    requires start <= |list|
    ensures out == Slice(list, start, desc, limit)
  {
    var end := start + limit;
    if end > |list| {
      end := |list|;
    }
    out := Page(limit, desc, |list|, list[start..end], "");
    if end < |list| && end > start {
      out := out.(nextAfter := list[end - 1].id);
    }
  }

  method SortedEntries(input: seq<Entry>, c: Criteria, lower: string -> string) returns (list: seq<Entry>)
    ensures list == Listing(input, c, lower)
  {
    var matched := FilterEntries(input, c, lower);
    list := Sort(Order(c.desc, lower), matched);
  }

  method PageDirectoryEntries(input: seq<Entry>, f: Filter, lower: string -> string) returns (page: Option<Page>)
    ensures page == Request(input, f, lower)
  {
    var matched := SortedEntries(input, f.criteria, lower);
    var start := 0;
    if f.after != "" {
      var at := FindCursor(matched, f.after);
      if at == |matched| {
        return None;
      }
      start := at + 1;
    }
    var out := CutPage(matched, start, f.criteria.desc, f.limit);
    return Some(out);
  }

  // ---------------------------------------------------------------------
  // The order
  // ---------------------------------------------------------------------

  /** Ids are present and differ even up to case, as the id boundary guarantees. */
  predicate Identified(input: seq<Entry>) {
    && (forall i :: 0 <= i < |input| ==> input[i].id != "")
    && forall i, j :: 0 <= i < j < |input| ==> Lower(input[i].id) != Lower(input[j].id)
  }

  lemma {:induction false} BeforeTransitive(a: Entry, b: Entry, c: Entry, desc: bool, lower: string -> string)
    requires Before(a, b, desc, lower) && Before(b, c, desc, lower)
    ensures Before(a, c, desc, lower)
  {
    var x, y, z := lower(a.displayName), lower(b.displayName), lower(c.displayName);
    LessTotal(x, y);
    LessTotal(y, z);
    LessTotal(x, z);
    if x == y == z {
      LessTransitive(a.id, b.id, c.id);
    } else if x != y && y != z {
      if desc { LessTransitive(z, y, x); } else { LessTransitive(x, y, z); }
    }
  }

  lemma {:induction false} BeforeTotal(a: Entry, b: Entry, desc: bool, lower: string -> string)
    ensures !Before(a, a, desc, lower)
    ensures a.id != b.id ==> Before(a, b, desc, lower) || Before(b, a, desc, lower)
  {
    LessTotal(lower(a.displayName), lower(b.displayName));
    LessTotal(a.id, b.id);
  }

  lemma {:induction false} MatchingFrom(input: seq<Entry>, c: Criteria, lower: string -> string)
    requires Identified(input)
    ensures Identified(Matching(input, c, lower))
    ensures forall e :: e in Matching(input, c, lower) <==> e in input && Matches(e, c, lower)
  {
    if input != [] {
      var n := |input| - 1;
      MatchingFrom(input[..n], c, lower);
      assert input == input[..n] + [input[n]];
      var m := Matching(input[..n], c, lower);
      forall i | 0 <= i < |m|
        ensures Lower(m[i].id) != Lower(input[n].id)
      {
        assert m[i] in input[..n];
      }
    }
  }

  lemma {:induction false} StrictOrder(desc: bool, lower: string -> string, s: seq<Entry>)
    requires Identified(s)
    ensures var less := Order(desc, lower);
            Transitive(less) && Irreflexive(less) && Distinct(s) && Comparable(less, s)
  {
    var less := Order(desc, lower);
    forall a, b, c | less(a, b) && less(b, c)
      ensures less(a, c)
    {
      BeforeTransitive(a, b, c, desc, lower);
    }
    forall a
      ensures !less(a, a)
    {
      BeforeTotal(a, a, desc, lower);
    }
    forall a, b | a in s && b in s && a != b
      ensures less(a, b) || less(b, a)
    {
      var i :| 0 <= i < |s| && s[i] == a;
      var j :| 0 <= j < |s| && s[j] == b;
      assert i < j || j < i;
      BeforeTotal(a, b, desc, lower);
    }
  }

  /** The listing is the one arrangement of the matching entries in the comparator's strict total order. */
  lemma {:induction false} ListingCorrect(input: seq<Entry>, c: Criteria, lower: string -> string)
    requires Identified(input)
    ensures var list := Listing(input, c, lower);
            && Ordered(Order(c.desc, lower), list)
            && (forall e :: e in list <==> e in input && Matches(e, c, lower))
            && forall other :: Ordered(Order(c.desc, lower), other)
                               && multiset(other) == multiset(Matching(input, c, lower))
                               ==> other == list
  {
    var less, m := Order(c.desc, lower), Matching(input, c, lower);
    MatchingFrom(input, c, lower);
    StrictOrder(c.desc, lower, m);
    SortOrdered(less, m);
    SameMembers(Sort(less, m), m);
    forall other | Ordered(less, other) && multiset(other) == multiset(m)
      ensures other == Sort(less, m)
    {
      OrderedUnique(less, other, Sort(less, m));
    }
  }

  lemma {:induction false} Rearranged(m: seq<Entry>, list: seq<Entry>)
    requires Identified(m) && Distinct(list) && multiset(list) == multiset(m)
    ensures Identified(list)
  {
    SameMembers(list, m);
    forall i | 0 <= i < |list|
      ensures list[i].id != ""
    {
      assert list[i] in m;
    }
    forall i, j | 0 <= i < j < |list|
      ensures Lower(list[i].id) != Lower(list[j].id)
    {
      assert list[i] in m && list[j] in m;
      var x :| 0 <= x < |m| && m[x] == list[i];
      var y :| 0 <= y < |m| && m[y] == list[j];
      assert x < y || y < x;
    }
  }

  lemma {:induction false} ListingIdentified(input: seq<Entry>, c: Criteria, lower: string -> string)
    requires Identified(input)
    ensures Identified(Listing(input, c, lower))
  {
    var less, m := Order(c.desc, lower), Matching(input, c, lower);
    MatchingFrom(input, c, lower);
    StrictOrder(c.desc, lower, m);
    SortOrdered(less, m);
    OrderedDistinct(less, Sort(less, m));
    Rearranged(m, Sort(less, m));
  }

  // ---------------------------------------------------------------------
  // Following the cursor
  // ---------------------------------------------------------------------

  /** Every page but the last names the cursor the next one was asked for with. */
  ghost predicate Follows(pages: seq<Page>, list: seq<Entry>, desc: bool, limit: nat) {
    && pages != []
    && pages[|pages| - 1].nextAfter == ""
    && forall i :: 0 <= i < |pages| - 1 ==>
         && pages[i].nextAfter != ""
         && Reply(list, desc, pages[i].nextAfter, limit) == Some(pages[i + 1])
  }

  /** A client that asks for the first page and then follows every cursor it is given. */
  ghost predicate Traversal(pages: seq<Page>, input: seq<Entry>, f: Filter, lower: string -> string) {
    && pages != []
    && Request(input, f.(after := ""), lower) == Some(pages[0])
    && pages[|pages| - 1].nextAfter == ""
    && forall i :: 0 <= i < |pages| - 1 ==>
         && pages[i].nextAfter != ""
         && Request(input, f.(after := pages[i].nextAfter), lower) == Some(pages[i + 1])
  }

  function Items(pages: seq<Page>): seq<Entry> {
    if pages == [] then [] else pages[0].items + Items(pages[1..])
  }

  /** `k` is the least number of pages of `limit` that hold `n` entries; an empty listing takes one. */
  predicate IsPageCount(k: nat, n: nat, limit: nat) {
    k >= 1 && n <= k * limit && (k > 1 ==> (k - 1) * limit < n)
  }

  lemma {:induction false} OneMorePage(k: nat, n: nat, limit: nat)
    requires limit > 0 && n > 0 && IsPageCount(k, n, limit)
    ensures IsPageCount(k + 1, n + limit, limit)
  {
    assert (k + 1) * limit == k * limit + limit;
    assert k * limit == (k - 1) * limit + limit;
  }

  /** The cursor of a page that is not the last asks for the next slice. */
  lemma {:induction false} ReplyAfter(list: seq<Entry>, start: nat, desc: bool, limit: nat)
    requires limit > 0 && Identified(list) && start + limit < |list|
    ensures var page := Slice(list, start, desc, limit);
            page.nextAfter != ""
            && Reply(list, desc, page.nextAfter, limit) == Some(Slice(list, start + limit, desc, limit))
  {
    var at := start + limit - 1;
    PositionAt(list, list[at].id, at);
    assert list[at].id != "" && Reply(list, desc, list[at].id, limit) == Some(Slice(list, at + 1, desc, limit));
  }

  /** A page that is not the listing's end is followed by the slice after it. */
  lemma {:induction false} NextPage(pages: seq<Page>, list: seq<Entry>, start: nat, desc: bool, limit: nat)
    requires limit > 0 && Identified(list) && start + limit < |list|
    requires Follows(pages, list, desc, limit) && pages[0] == Slice(list, start, desc, limit)
    ensures |pages| > 1 && Follows(pages[1..], list, desc, limit)
    ensures pages[1] == Slice(list, start + limit, desc, limit)
  {
    ReplyAfter(list, start, desc, limit);
    assert Reply(list, desc, pages[0].nextAfter, limit) == Some(pages[1]);
  }

  /** Any chain of pages starting at an offset delivers the rest of the listing, once and in order. */
  lemma {:induction false} FollowsDelivers(pages: seq<Page>, list: seq<Entry>, start: nat, desc: bool, limit: nat)
    requires limit > 0 && Identified(list) && start <= |list|
    requires Follows(pages, list, desc, limit) && pages[0] == Slice(list, start, desc, limit)
    ensures Items(pages) == list[start..]
  {
    var end := start + limit;
    if end < |list| {
      NextPage(pages, list, start, desc, limit);
      FollowsDelivers(pages[1..], list, end, desc, limit);
      SlicesJoin(list, start, end);
    } else {
      OnlyPage(pages, list, start, desc, limit);
    }
  }

  lemma {:induction false} SlicesJoin(list: seq<Entry>, start: nat, end: nat)
    requires start <= end <= |list|
    ensures list[start..] == list[start..end] + list[end..]
  {
  }

  /** A page that reaches the listing's end has no successor. */
  lemma {:induction false} OnlyPage(pages: seq<Page>, list: seq<Entry>, start: nat, desc: bool, limit: nat)
    requires limit > 0 && start <= |list| <= start + limit
    requires Follows(pages, list, desc, limit) && pages[0] == Slice(list, start, desc, limit)
    ensures |pages| == 1 && Items(pages) == list[start..]
  {
    assert pages[0].nextAfter == "";
    assert Items(pages[1..]) == [];
    assert list[start..|list|] == list[start..];
  }

  lemma {:induction false} FollowsCount(pages: seq<Page>, list: seq<Entry>, start: nat, desc: bool, limit: nat)
    requires limit > 0 && Identified(list) && start <= |list|
    requires Follows(pages, list, desc, limit) && pages[0] == Slice(list, start, desc, limit)
    ensures IsPageCount(|pages|, |list| - start, limit)
  {
    var end := start + limit;
    if end < |list| {
      NextPage(pages, list, start, desc, limit);
      FollowsCount(pages[1..], list, end, desc, limit);
      OneMorePage(|pages| - 1, |list| - end, limit);
    } else {
      assert |pages| == 1;
    }
  }

  /**
   Following the cursors delivers exactly the listing, each entry once and in order, in as
   many pages as the limit makes necessary, in either direction.
   */
  lemma {:induction false} TraversalDelivers(pages: seq<Page>, input: seq<Entry>, f: Filter, lower: string -> string)
    requires f.limit > 0 && Identified(input) && Traversal(pages, input, f, lower)
    ensures Items(pages) == Listing(input, f.criteria, lower)
    ensures IsPageCount(|pages|, |Listing(input, f.criteria, lower)|, f.limit)
  {
    var list := Listing(input, f.criteria, lower);
    ListingIdentified(input, f.criteria, lower);
    forall i | 0 <= i < |pages| - 1
      ensures pages[i].nextAfter != ""
              && Reply(list, f.criteria.desc, pages[i].nextAfter, f.limit) == Some(pages[i + 1])
    {
      assert Request(input, f.(after := pages[i].nextAfter), lower) == Some(pages[i + 1]);
    }
    FollowsDelivers(pages, list, 0, f.criteria.desc, f.limit);
    FollowsCount(pages, list, 0, f.criteria.desc, f.limit);
  }

  /** Ascending or descending by lower-cased name, and by ascending id among equal names. */
  ghost predicate InNameOrder(items: seq<Entry>, desc: bool, lower: string -> string) {
    forall i, j :: 0 <= i < j < |items| ==>
      var a, b := lower(items[i].displayName), lower(items[j].displayName);
      && (!desc ==> !Less(b, a))
      && (desc ==> !Less(a, b))
      && (a == b ==> Less(items[i].id, items[j].id))
  }

  lemma {:induction false} OrderedByName(items: seq<Entry>, desc: bool, lower: string -> string)
    requires Ordered(Order(desc, lower), items)
    ensures InNameOrder(items, desc, lower)
  {
    forall i, j | 0 <= i < j < |items|
      ensures var a, b := lower(items[i].displayName), lower(items[j].displayName);
              && (!desc ==> !Less(b, a))
              && (desc ==> !Less(a, b))
              && (a == b ==> Less(items[i].id, items[j].id))
    {
      assert Order(desc, lower)(items[i], items[j]);
      LessTotal(lower(items[i].displayName), lower(items[j].displayName));
    }
  }

  /** What a client receives by following the cursors is in the order it asked for. */
  lemma {:induction false} TraversalInOrder(pages: seq<Page>, input: seq<Entry>, f: Filter, lower: string -> string)
    requires f.limit > 0 && Identified(input) && Traversal(pages, input, f, lower)
    ensures InNameOrder(Items(pages), f.criteria.desc, lower)
  {
    TraversalDelivers(pages, input, f, lower);
    ListingCorrect(input, f.criteria, lower);
    OrderedByName(Items(pages), f.criteria.desc, lower);
  }

  /**
   Every page says how many entries match in all and how many it may hold; one that names a
   cursor is full, and names its last entry.
   */
  lemma {:induction false} PageSays(input: seq<Entry>, f: Filter, lower: string -> string, page: Page)
    requires f.limit > 0 && Request(input, f, lower) == Some(page)
    ensures page.pageSize == f.limit && page.desc == f.criteria.desc && |page.items| <= f.limit
    ensures page.totalVisible == |Matching(input, f.criteria, lower)|
    ensures page.nextAfter != "" ==> |page.items| == f.limit && page.nextAfter == page.items[f.limit - 1].id
  {
    var list := Listing(input, f.criteria, lower);
    SameMembers(list, Matching(input, f.criteria, lower));
    SliceSays(list, if f.after == "" then 0 else Position(list, f.after) + 1, f.criteria.desc, f.limit);
  }

  lemma {:induction false} SliceSays(list: seq<Entry>, start: nat, desc: bool, limit: nat)
    requires limit > 0 && start <= |list|
    ensures var page := Slice(list, start, desc, limit);
            && page.pageSize == limit && page.desc == desc && |page.items| <= limit && page.totalVisible == |list|
            && (page.nextAfter != "" ==> |page.items| == limit && page.nextAfter == page.items[limit - 1].id)
  {
  }

  function PagesFrom(list: seq<Entry>, start: nat, desc: bool, limit: nat): (pages: seq<Page>)
    requires limit > 0 && start <= |list|
    ensures pages != [] && pages[0] == Slice(list, start, desc, limit)
    decreases |list| - start
  {
    [Slice(list, start, desc, limit)] +
      if start + limit < |list| then PagesFrom(list, start + limit, desc, limit) else []
  }

  lemma {:induction false} PagesFollow(list: seq<Entry>, start: nat, desc: bool, limit: nat)
    requires limit > 0 && Identified(list) && start <= |list|
    ensures Follows(PagesFrom(list, start, desc, limit), list, desc, limit)
    decreases |list| - start
  {
    var end := start + limit;
    if end < |list| {
      ReplyAfter(list, start, desc, limit);
      PagesFollow(list, end, desc, limit);
      FollowsCons(Slice(list, start, desc, limit), PagesFrom(list, end, desc, limit), list, desc, limit);
    }
  }

  lemma {:induction false} FollowsCons(page: Page, rest: seq<Page>, list: seq<Entry>, desc: bool, limit: nat)
    requires Follows(rest, list, desc, limit)
    requires page.nextAfter != "" && Reply(list, desc, page.nextAfter, limit) == Some(rest[0])
    ensures Follows([page] + rest, list, desc, limit)
  {
    var pages := [page] + rest;
    forall i | 0 <= i < |pages| - 1
      ensures pages[i].nextAfter != "" && Reply(list, desc, pages[i].nextAfter, limit) == Some(pages[i + 1])
    {
      assert i > 0 ==> pages[i] == rest[i - 1] && pages[i + 1] == rest[i];
    }
  }

  /** Such a client always reaches the end: no cursor it is given is ever stale. */
  lemma {:induction false} TraversalExists(input: seq<Entry>, f: Filter, lower: string -> string)
    requires f.limit > 0 && Identified(input)
    ensures exists pages :: Traversal(pages, input, f, lower)
  {
    var list := Listing(input, f.criteria, lower);
    ListingIdentified(input, f.criteria, lower);
    PagesFollow(list, 0, f.criteria.desc, f.limit);
    var pages := PagesFrom(list, 0, f.criteria.desc, f.limit);
    forall i | 0 <= i < |pages| - 1
      ensures pages[i].nextAfter != "" && Request(input, f.(after := pages[i].nextAfter), lower) == Some(pages[i + 1])
    {
      assert Reply(list, f.criteria.desc, pages[i].nextAfter, f.limit) == Some(pages[i + 1]);
    }
    assert Traversal(pages, input, f, lower);
  }

  /** A cursor, in whatever case, is answered with what follows its entry, up to the limit. */
  lemma {:induction false} CursorResumes(input: seq<Entry>, f: Filter, lower: string -> string, j: nat)
    requires Identified(input) && f.after != "" && j < |Listing(input, f.criteria, lower)|
    requires Lower(Listing(input, f.criteria, lower)[j].id) == Lower(f.after)
    ensures var (list, page) := (Listing(input, f.criteria, lower), Request(input, f, lower));
            && page.Some? && page.value.items <= list[j + 1..]
            && (|page.value.items| == f.limit || page.value.items == list[j + 1..])
  {
    var list := Listing(input, f.criteria, lower);
    ListingIdentified(input, f.criteria, lower);
    PositionAt(list, f.after, j);
    assert Request(input, f, lower) == Some(Slice(list, j + 1, f.criteria.desc, f.limit));
    SliceFollows(list, j + 1, f.criteria.desc, f.limit);
  }

  lemma {:induction false} SliceFollows(list: seq<Entry>, start: nat, desc: bool, limit: nat)
    requires start <= |list|
    ensures var items := Slice(list, start, desc, limit).items;
            items <= list[start..] && (|items| == limit || items == list[start..])
  {
    var end := if start + limit > |list| then |list| else start + limit;
    SlicesJoin(list, start, end);
  }

  lemma {:induction false} PositionAt(list: seq<Entry>, after: string, j: nat)
    requires Identified(list) && j < |list| && Lower(list[j].id) == Lower(after)
    ensures Position(list, after) == j
  {
    if j > 0 {
      PositionAt(list[1..], after, j - 1);
    }
  }

  lemma {:induction false} PositionMisses(list: seq<Entry>, after: string)
    ensures Position(list, after) == |list| <==> forall e :: e in list ==> Lower(e.id) != Lower(after)
  {
    if list != [] {
      PositionMisses(list[1..], after);
      assert forall e :: e in list <==> e == list[0] || e in list[1..];
    }
  }

  /** A cursor is refused exactly when no visible, matching entry has that id. */
  lemma {:induction false} StaleCursor(input: seq<Entry>, f: Filter, lower: string -> string)
    requires Identified(input) && f.after != ""
    ensures Request(input, f, lower).None? <==>
            forall e :: e in input && Matches(e, f.criteria, lower) ==> Lower(e.id) != Lower(f.after)
  {
    ListingCorrect(input, f.criteria, lower);
    PositionMisses(Listing(input, f.criteria, lower), f.after);
  }

  // ---------------------------------------------------------------------
  // The id boundary
  // ---------------------------------------------------------------------

  datatype Grant = Grant(permission: string, level: string, mode: string, environment: string, organisation: string)

  predicate Hex(c: char) {
    '0' <= c <= '9' || 'a' <= c <= 'f'
  }

  /** A canonical, lower-case, hyphenated UUID. */
  predicate IsUuid(s: string) {
    && |s| == 36
    && forall i :: 0 <= i < 36 ==> if i in {8, 13, 18, 23} then s[i] == '-' else Hex(s[i])
  }

  predicate Lists(g: Grant, environment: string) {
    && g.permission == "organisation.view"
    && g.level == "ORGANISATION"
    && (g.mode == "" || g.mode == "EXACT")
    && (g.environment == "" || g.environment == environment)
    && IsUuid(g.organisation)
  }

  ghost function ListedIds(grants: seq<Grant>, environment: string): set<string> {
    set g | g in grants && Lists(g, environment) :: Lower(g.organisation)
  }

  lemma {:induction false} UuidIsLower(s: string)
    requires IsUuid(s)
    ensures Lower(s) == s
  {
  }

  /** `ids` are the listed ids, ascending and without repeats. */
  ghost predicate Authorised(grants: seq<Grant>, environment: string, ids: seq<string>) {
    && Ordered(Less, ids) && Distinct(ids)
    && (forall id :: id in ids <==> id in ListedIds(grants, environment))
    && (forall id :: id in ids ==> IsUuid(id))
  }

  /** The ids come back ascending and without repeats, or not at all when there are more than `max`. */
  method BoundedDirectoryIDs(grants: seq<Grant>, environment: string, max: nat) returns (ids: Option<seq<string>>)
    ensures ids.Some? <==> |ListedIds(grants, environment)| <= max
    ensures ids.Some? ==> Authorised(grants, environment, ids.value)
  {
    var collected := CollectIDs(grants, environment, max);
    if collected.None? {
      return None;
    }
    SortedIds(collected.value);
    ListedAreUuids(grants, environment);
    return Some(Sort(Less, collected.value));
  }

  method CollectIDs(grants: seq<Grant>, environment: string, max: nat) returns (ids: Option<seq<string>>)
    ensures ids.Some? <==> |ListedIds(grants, environment)| <= max
    ensures ids.Some? ==> Distinct(ids.value) && forall id :: id in ids.value <==> id in ListedIds(grants, environment)
  {
    var out: seq<string>, seen: set<string> := [], {};
    for i := 0 to |grants|
      invariant seen == ListedIds(grants[..i], environment) && |seen| <= max
      invariant HoldsOnce(out, seen)
    {
      ListedSnoc(grants, i, environment);
      ListedGrows(grants, i + 1, environment);
      if !Lists(grants[i], environment) {
        continue;
      }
      var id := Lower(grants[i].organisation);
      if id in seen {
        continue;
      }
      ListsSnoc(out, seen, id);
      seen := seen + {id};
      if |seen| > max {
        return None;
      }
      out := out + [id];
    }
    assert grants[..|grants|] == grants;
    return Some(out);
  }

  /** `out` holds the members of `seen`, each once. */
  ghost predicate HoldsOnce(out: seq<string>, seen: set<string>) {
    Distinct(out) && forall id :: id in out <==> id in seen
  }

  lemma {:induction false} ListsSnoc(out: seq<string>, seen: set<string>, id: string)
    requires HoldsOnce(out, seen) && id !in seen
    ensures HoldsOnce(out + [id], seen + {id})
  {
  }

  lemma {:induction false} StringOrder(s: seq<string>)
    ensures Transitive(Less) && Irreflexive(Less) && Comparable(Less, s)
  {
    forall a, b, c | Less(a, b) && Less(b, c)
      ensures Less(a, c)
    {
      LessTransitive(a, b, c);
    }
    forall a, b
      ensures !Less(a, a) && (a == b || Less(a, b) || Less(b, a))
    {
      LessTotal(a, b);
    }
  }

  lemma {:induction false} ListedAreUuids(grants: seq<Grant>, environment: string)
    ensures forall id :: id in ListedIds(grants, environment) ==> IsUuid(id)
  {
    forall g | g in grants && Lists(g, environment)
      ensures IsUuid(Lower(g.organisation))
    {
      UuidIsLower(g.organisation);
    }
  }

  lemma {:induction false} SortedIds(out: seq<string>)
    requires Distinct(out)
    ensures var s := Sort(Less, out);
            Ordered(Less, s) && Distinct(s) && forall id :: id in s <==> id in out
  {
    StringOrder(out);
    SortOrdered(Less, out);
    OrderedDistinct(Less, Sort(Less, out));
    SameMembers(Sort(Less, out), out);
  }

  lemma {:induction false} ListedSnoc(grants: seq<Grant>, i: nat, environment: string)
    requires i < |grants|
    ensures ListedIds(grants[..i + 1], environment) ==
            ListedIds(grants[..i], environment) +
              if Lists(grants[i], environment) then {Lower(grants[i].organisation)} else {}
  {
    assert grants[..i + 1] == grants[..i] + [grants[i]];
  }

  lemma {:induction false} ListedGrows(grants: seq<Grant>, i: nat, environment: string)
    requires i <= |grants|
    ensures |ListedIds(grants[..i], environment)| <= |ListedIds(grants, environment)|
  {
    var a, b := ListedIds(grants[..i], environment), ListedIds(grants, environment);
    assert a <= b;
    assert b == a + (b - a);
  }

  // ---------------------------------------------------------------------
  // From the ids to the traversal
  // ---------------------------------------------------------------------

  /** An organisation as the registry knows it. */
  datatype Profile = Profile(entity: string, displayName: string, status: string, verification: string, source: string,
                             jurisdiction: string)

  function EntryOf(id: string, p: Profile): Entry {
    Entry(id, p.displayName, p.status, p.verification, p.source, p.jurisdiction)
  }

  /** The registry answers for the id, and if it has a profile it is that id's. */
  predicate Consistent(id: string, registry: string -> Read<Profile>) {
    match registry(id)
    case Found(p) => Lower(p.entity) == Lower(id)
    case Missing => true
    case Unreadable => false
  }

  function Candidates(ids: seq<string>, registry: string -> Read<Profile>): seq<Entry> {
    if ids == [] then []
    else
      var n := |ids| - 1;
      Candidates(ids[..n], registry) + if registry(ids[n]).Found? then [EntryOf(ids[n], registry(ids[n]).value)] else []
  }

  /** The loop over the ids: an entry per profile, refused if a read fails or names another organisation. */
  method BuildCandidates(ids: seq<string>, registry: string -> Read<Profile>) returns (candidates: Option<seq<Entry>>)
    requires Distinct(ids) && forall id :: id in ids ==> IsUuid(id)
    ensures candidates.Some? <==> forall id :: id in ids ==> Consistent(id, registry)
    ensures candidates.Some? ==> candidates.value == Candidates(ids, registry) && Identified(candidates.value)
  {
    var out := [];
    for i := 0 to |ids|
      invariant out == Candidates(ids[..i], registry)
      invariant forall j :: 0 <= j < i ==> Consistent(ids[j], registry)
    {
      assert ids[..i + 1][..i] == ids[..i];
      match registry(ids[i]) {
        case Unreadable =>
          assert ids[i] in ids;
          return None;
        case Missing =>
        case Found(p) =>
          if Lower(p.entity) != Lower(ids[i]) {
            assert ids[i] in ids;
            return None;
          }
          out := out + [EntryOf(ids[i], p)];
      }
    }
    assert ids[..|ids|] == ids;
    CandidatesIdentified(ids, registry);
    return Some(out);
  }

  /** There is a candidate for an id exactly when the id is listed and has a profile, and it is that profile's. */
  lemma {:induction false} CandidateOf(ids: seq<string>, registry: string -> Read<Profile>, e: Entry)
    ensures e in Candidates(ids, registry) <==>
            e.id in ids && registry(e.id).Found? && e == EntryOf(e.id, registry(e.id).value)
  {
    if ids != [] {
      var n := |ids| - 1;
      CandidateOf(ids[..n], registry, e);
      assert ids == ids[..n] + [ids[n]];
    }
  }

  /** Candidates of distinct canonical ids satisfy what paging needs. */
  lemma {:induction false} CandidatesIdentified(ids: seq<string>, registry: string -> Read<Profile>)
    requires Distinct(ids) && forall id :: id in ids ==> IsUuid(id)
    ensures Identified(Candidates(ids, registry))
  {
    if ids != [] {
      var n := |ids| - 1;
      var rest, last := Candidates(ids[..n], registry), ids[n];
      assert forall i :: 0 <= i < n ==> ids[..n][i] == ids[i];
      CandidatesIdentified(ids[..n], registry);
      UuidIsLower(last);
      forall e | e in rest
        ensures Lower(e.id) != Lower(last)
      {
        CandidateOf(ids[..n], registry, e);
        UuidIsLower(e.id);
      }
    }
  }

  /** The whole request: the grants' ids, their candidates, one page. */
  method DirectoryPage(grants: seq<Grant>, environment: string, max: nat, registry: string -> Read<Profile>, f: Filter,
                       lower: string -> string)
    returns (page: Option<Page>)
    ensures page.Some? ==> |ListedIds(grants, environment)| <= max
    ensures page.Some? ==>
              exists ids :: Authorised(grants, environment, ids) && page == Request(Candidates(ids, registry), f, lower)
    ensures page.None? ==>
              || |ListedIds(grants, environment)| > max
              || (exists id :: id in ListedIds(grants, environment) && !Consistent(id, registry))
              || exists ids :: Authorised(grants, environment, ids)
                               && Request(Candidates(ids, registry), f, lower).None?
  {
    var ids := BoundedDirectoryIDs(grants, environment, max);
    if ids.None? {
      return None;
    }
    var candidates := BuildCandidates(ids.value, registry);
    if candidates.None? {
      return None;
    }
    page := PageDirectoryEntries(candidates.value, f, lower);
  }

  lemma {:induction false} AuthorisedOnce(grants: seq<Grant>, environment: string, one: seq<string>, other: seq<string>)
    requires Authorised(grants, environment, one) && Authorised(grants, environment, other)
    ensures one == other
  {
    StringOrder(one);
    StringOrder(other);
    SameSets(one, other);
    OrderedUnique(Less, one, other);
  }

  lemma {:induction false} SameSets(one: seq<string>, other: seq<string>)
    requires Distinct(one) && Distinct(other) && forall id :: id in one <==> id in other
    ensures multiset(one) == multiset(other)
  {
    forall id
      ensures multiset(one)[id] == multiset(other)[id]
    {
      DistinctCount(one, id);
      DistinctCount(other, id);
    }
  }

  lemma {:induction false} DistinctCount(s: seq<string>, id: string)
    requires Distinct(s)
    ensures multiset(s)[id] == if id in s then 1 else 0
  {
    if s != [] {
      var n := |s| - 1;
      DistinctCount(s[..n], id);
      assert s == s[..n] + [s[n]];
      assert s[n] !in s[..n];
    }
  }

  /** The name holds the query, and verification and status are those asked for, where any are. */
  ghost predicate Wanted(e: Entry, c: Criteria, lower: string -> string) {
    && (c.query != "" ==> exists before, after :: lower(e.displayName) == before + lower(c.query) + after)
    && c.verification in {"", e.verification}
    && c.status in {"", e.status}
  }

  lemma {:induction false} MatchesWanted(e: Entry, c: Criteria, lower: string -> string)
    ensures Matches(e, c, lower) <==> Wanted(e, c, lower)
  {
    ContainsExactly(lower(e.displayName), lower(c.query));
  }

  /** Some grant lets its holder view exactly this organisation, in this environment. */
  ghost predicate Viewable(grants: seq<Grant>, environment: string, id: string) {
    exists g :: && g in grants && g.organisation == id && g.permission == "organisation.view"
                && g.level == "ORGANISATION" && g.mode in {"", "EXACT"} && g.environment in {"", environment}
  }

  lemma {:induction false} ListedViewable(grants: seq<Grant>, environment: string, id: string)
    ensures id in ListedIds(grants, environment) <==> IsUuid(id) && Viewable(grants, environment, id)
  {
    if id in ListedIds(grants, environment) {
      var g :| g in grants && Lists(g, environment) && Lower(g.organisation) == id;
      UuidIsLower(g.organisation);
    }
    if IsUuid(id) && Viewable(grants, environment, id) {
      UuidIsLower(id);
    }
  }

  /** The registry has a profile of this organisation, and the entry shows it. */
  ghost predicate Shows(e: Entry, registry: string -> Read<Profile>) {
    exists entity :: registry(e.id) ==
      Found(Profile(entity, e.displayName, e.status, e.verification, e.source, e.jurisdiction))
  }

  lemma {:induction false} EntryShows(e: Entry, registry: string -> Read<Profile>)
    ensures Shows(e, registry) <==> registry(e.id).Found? && e == EntryOf(e.id, registry(e.id).value)
  {
    if registry(e.id).Found? && e == EntryOf(e.id, registry(e.id).value) {
      var p := registry(e.id).value;
      assert p == Profile(p.entity, e.displayName, e.status, e.verification, e.source, e.jurisdiction);
    }
  }

  /**
   From the grants to the client: following the cursors delivers each organisation the grants
   let it view that has a profile and is wanted, exactly once, in the order asked for, and no
   other.
   */
  lemma {:induction false} DirectoryDelivers(grants: seq<Grant>, environment: string, ids: seq<string>,
                                             registry: string -> Read<Profile>, pages: seq<Page>, f: Filter,
                                             lower: string -> string)
    requires Authorised(grants, environment, ids)
    requires f.limit > 0 && Traversal(pages, Candidates(ids, registry), f, lower)
    ensures InNameOrder(Items(pages), f.criteria.desc, lower) && Distinct(Items(pages))
    ensures IsPageCount(|pages|, |Items(pages)|, f.limit)
    ensures forall e :: e in Items(pages) <==>
                        && IsUuid(e.id) && Viewable(grants, environment, e.id) && Shows(e, registry)
                        && Wanted(e, f.criteria, lower)
  {
    var input := Candidates(ids, registry);
    CandidatesIdentified(ids, registry);
    TraversalInOrder(pages, input, f, lower);
    TraversalDelivers(pages, input, f, lower);
    ListingDistinct(input, f.criteria, lower);
    forall e
      ensures e in Items(pages) <==>
              && IsUuid(e.id) && Viewable(grants, environment, e.id) && Shows(e, registry)
              && Wanted(e, f.criteria, lower)
    {
      ListingHolds(input, f.criteria, lower, e);
      CandidateOf(ids, registry, e);
      ListedViewable(grants, environment, e.id);
      EntryShows(e, registry);
      MatchesWanted(e, f.criteria, lower);
    }
  }

  lemma {:induction false} ListingDistinct(input: seq<Entry>, c: Criteria, lower: string -> string)
    requires Identified(input)
    ensures Distinct(Listing(input, c, lower))
  {
    ListingIdentified(input, c, lower);
  }

  lemma {:induction false} ListingHolds(input: seq<Entry>, c: Criteria, lower: string -> string, e: Entry)
    requires Identified(input)
    ensures e in Listing(input, c, lower) <==> e in input && Matches(e, c, lower)
  {
    ListingCorrect(input, c, lower);
  }

  // ---------------------------------------------------------------------
  // Canonical identifiers
  // ---------------------------------------------------------------------

  /** Lower-case hexadecimal, by its digits. */
  predicate HexOnly(s: string, n: nat) {
    |s| == n && forall i :: 0 <= i < n ==> s[i] in "0123456789abcdef"
  }

  /** Five groups of 8, 4, 4, 4 and 12 hexadecimal digits, between hyphens. */
  lemma {:induction false} UuidExactly(s: string)
    ensures IsUuid(s) <==>
            exists a, b, c, d, e :: HexOnly(a, 8) && HexOnly(b, 4) && HexOnly(c, 4) && HexOnly(d, 4) && HexOnly(e, 12)
                                    && s == a + "-" + b + "-" + c + "-" + d + "-" + e
  {
    if IsUuid(s) {
      var a, b, c, d, e := s[..8], s[9..13], s[14..18], s[19..23], s[24..];
      assert s == a + "-" + b + "-" + c + "-" + d + "-" + e;
      assert HexOnly(a, 8) && HexOnly(b, 4) && HexOnly(c, 4) && HexOnly(d, 4) && HexOnly(e, 12);
    }
  }
}
