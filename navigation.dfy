/**
 * The navigation logic of the documentation site (routes/index.tsx): the
 * current path, the flat page list built from the table of contents, the
 * previous and next links, the title lookup and the document title, the
 * table-of-contents highlighting, and the request handler's path rules.
 */
module Navigation {
  import opened Text
  import opened Wrappers
  import opened Urls
  import UrlPath

  // ---------------------------------------------------------------- table of contents

  /** One `[childSlug, name]` pair of an entry's `children` object. */
  datatype Child = Child(slug: string, name: string)

  /**
   * One `[slug, entry]` pair of TableOfContents: the entry's name and, when
   * the `children` key is present, its children in key order.
   */
  datatype Entry = Entry(slug: string, name: string, children: Option<seq<Child>>)

  /** TableOfContents, as the pairs Object.entries lists in order. */
  type Toc = seq<Entry>

  /** One `{ path, name }` element of pageList. */
  datatype Page = Page(path: string, name: string)

  function TopPath(e: Entry): string {
    "/" + e.slug
  }

  function ChildPath(slug: string, c: Child): string {
    "/" + slug + "/" + c.slug
  }

  /** The children an entry lists; none when it has no `children` key. */
  function ChildrenOf(e: Entry): seq<Child> {
    if e.children.Some? then e.children.value else []
  }

  // ---------------------------------------------------------------- path

  const DefaultPath: string := "/introduction"

  /**
   * `!pathname || pathname === "/" ? "/introduction" : pathname`. The ensures
   * unfold the definition; NormalizeIdempotent is the property.
   */
  function Normalize(pathname: string): (path: string)
    ensures pathname == "" || pathname == "/" ==> path == DefaultPath
    ensures pathname != "" && pathname != "/" ==> path == pathname
  {
    if pathname == "" || pathname == "/" then DefaultPath else pathname
  }

  /** Normalising twice is normalising once, and the result is never the empty or the root path. */
  lemma NormalizeIdempotent(pathname: string)
    ensures Normalize(Normalize(pathname)) == Normalize(pathname)
    ensures Normalize(pathname) != "" && Normalize(pathname) != "/"
  {
    assert DefaultPath[1] == 'i';
  }

  // ---------------------------------------------------------------- pageList

  function ChildPages(slug: string, cs: seq<Child>): (ps: seq<Page>)
    ensures |ps| == |cs|
    ensures forall j :: 0 <= j < |cs| ==> ps[j] == Page(ChildPath(slug, cs[j]), cs[j].name)
  {
    seq(|cs|, j requires 0 <= j < |cs| => Page(ChildPath(slug, cs[j]), cs[j].name))
  }

  /** What one entry contributes to pageList: its own page, then its children's. */
  function EntryPages(e: Entry): seq<Page> {
    [Page(TopPath(e), e.name)] + ChildPages(e.slug, ChildrenOf(e))
  }

  /** The pages of the first n entries: pageList after n rounds of the outer loop. */
  function Pages(toc: Toc, n: nat): seq<Page>
    requires n <= |toc|
  {
    if n == 0 then [] else Pages(toc, n - 1) + EntryPages(toc[n - 1])
  }

  /** pageList: the entries' contributions in entry order. */
  function PageList(toc: Toc): seq<Page> {
    Pages(toc, |toc|)
  }

  /** How many children the first n entries list. */
  function ChildCount(toc: Toc, n: nat): nat
    requires n <= |toc|
  {
    if n == 0 then 0 else ChildCount(toc, n - 1) + |ChildrenOf(toc[n - 1])|
  }

  /** Where entry i's own page sits in pageList. */
  function EntryStart(toc: Toc, i: nat): nat
    requires i <= |toc|
  {
    |Pages(toc, i)|
  }

  /** The first n entries contribute one page each and one per child. */
  lemma {:induction false} PagesLength(toc: Toc, n: nat)
    requires n <= |toc|
    ensures |Pages(toc, n)| == n + ChildCount(toc, n)
    decreases n
  {
    if n > 0 {
      PagesLength(toc, n - 1);
    }
  }

  /** The pages of the first m entries are the beginning of the pages of the first n, for m <= n. */
  lemma {:induction false} PagesExtend(toc: Toc, m: nat, n: nat) returns (rest: seq<Page>)
    requires m <= n <= |toc|
    ensures Pages(toc, n) == Pages(toc, m) + rest
    decreases n
  {
    if n == m {
      rest := [];
    } else {
      var r := PagesExtend(toc, m, n - 1);
      rest := r + EntryPages(toc[n - 1]);
      assert Pages(toc, m) + r + EntryPages(toc[n - 1]) == Pages(toc, m) + rest;
    }
  }

  /**
   * Entry i's page is `/slug` at EntryStart(i), and its children follow at
   * once as `/slug/child`, in order.
   */
  lemma PageListAt(toc: Toc, i: nat)
    requires i < |toc|
    ensures EntryStart(toc, i) + 1 + |ChildrenOf(toc[i])| <= |PageList(toc)|
    ensures PageList(toc)[EntryStart(toc, i)] == Page(TopPath(toc[i]), toc[i].name)
    ensures forall j :: 0 <= j < |ChildrenOf(toc[i])| ==>
      PageList(toc)[EntryStart(toc, i) + 1 + j] == Page(ChildPath(toc[i].slug, ChildrenOf(toc[i])[j]), ChildrenOf(toc[i])[j].name)
  {
    EntryLocated(toc, i);
    EntryLayout(PageList(toc), EntryStart(toc, i), toc[i]);
  }

  /** Entry i's pages are the slice of pageList that starts at EntryStart(i). */
  lemma EntryLocated(toc: Toc, i: nat)
    requires i < |toc|
    ensures EntryStart(toc, i) + |EntryPages(toc[i])| <= |PageList(toc)|
    ensures PageList(toc)[EntryStart(toc, i)..EntryStart(toc, i) + |EntryPages(toc[i])|] == EntryPages(toc[i])
  {
    var rest := PagesExtend(toc, i + 1, |toc|);
    Middle(Pages(toc, i), EntryPages(toc[i]), rest);
  }

  /** Entry i + 1 starts right after entry i's page and its children. */
  lemma EntryStartNext(toc: Toc, i: nat)
    requires i < |toc|
    ensures EntryStart(toc, i + 1) == EntryStart(toc, i) + 1 + |ChildrenOf(toc[i])|
  {
    assert |EntryPages(toc[i])| == 1 + |ChildrenOf(toc[i])|;
  }

  lemma Middle(P: seq<Page>, E: seq<Page>, R: seq<Page>)
    ensures |P| + |E| <= |P + E + R| && (P + E + R)[|P|..|P| + |E|] == E
  {
  }

  /** Where one entry's pages sit in a list that holds them from position k on. */
  lemma EntryLayout(pl: seq<Page>, k: nat, e: Entry)
    requires k + |EntryPages(e)| <= |pl| && pl[k..k + |EntryPages(e)|] == EntryPages(e)
    ensures k + 1 + |ChildrenOf(e)| <= |pl|
    ensures pl[k] == Page(TopPath(e), e.name)
    ensures forall j :: 0 <= j < |ChildrenOf(e)| ==>
      pl[k + 1 + j] == Page(ChildPath(e.slug, ChildrenOf(e)[j]), ChildrenOf(e)[j].name)
  {
    var E := EntryPages(e);
    var cs := ChildrenOf(e);
    forall j | 0 <= j < |cs|
      ensures pl[k + 1 + j] == Page(ChildPath(e.slug, cs[j]), cs[j].name)
    {
      assert pl[k + 1 + j] == pl[k..k + |E|][1 + j] == E[1 + j];
      assert E[1 + j] == ChildPages(e.slug, cs)[j];
    }
    assert pl[k] == pl[k..k + |E|][0] == E[0];
  }

  /** pageList built as the source builds it: a list pushed to entry by entry, child by child. */
  method BuildPageList(toc: Toc) returns (list: seq<Page>)
    ensures list == PageList(toc)
  {
    list := [];
    var i := 0;
    while i < |toc|
      invariant 0 <= i <= |toc|
      invariant list == Pages(toc, i)
    {
      list := PushEntryPages(list, toc[i]);
      PagesNext(toc, i);
      i := i + 1;
    }
  }

  lemma PagesNext(toc: Toc, i: nat)
    requires i < |toc|
    ensures Pages(toc, i + 1) == Pages(toc, i) + EntryPages(toc[i])
  {
  }

  /** One round of the outer loop: push the entry's page, then its children's. */
  method PushEntryPages(before: seq<Page>, e: Entry) returns (list: seq<Page>)
    ensures list == before + EntryPages(e)
  {
    list := before + [Page(TopPath(e), e.name)];
    if e.children.Some? {
      var cs := e.children.value;
      var j := 0;
      while j < |cs|
        invariant 0 <= j <= |cs|
        invariant list == before + [Page(TopPath(e), e.name)] + ChildPages(e.slug, cs[..j])
      {
        ChildPagesSnoc(e.slug, cs, j);
        list := list + [Page(ChildPath(e.slug, cs[j]), cs[j].name)];
        j := j + 1;
      }
      assert cs[..j] == cs;
    } else {
      assert EntryPages(e) == [Page(TopPath(e), e.name)];
    }
  }

  // ---------------------------------------------------------------- pageIndex and the neighbour links

  /** `pageList.findIndex(page => page.path === path)`. */
  function FindIndex(pl: seq<Page>, path: string): (r: int)
    ensures -1 <= r < |pl|
    ensures r == -1 <==> forall k :: 0 <= k < |pl| ==> pl[k].path != path
    ensures 0 <= r ==> pl[r].path == path && forall k :: 0 <= k < r ==> pl[k].path != path
    decreases |pl|
  {
    if pl == [] then -1
    else if pl[0].path == path then 0
    else
      var r := FindIndex(pl[1..], path);
      assert forall k :: 1 <= k < |pl| ==> pl[k] == pl[1..][k - 1];
      if r == -1 then -1 else r + 1
  }

  /** `pageList[i]`, which is undefined outside the list. */
  function At(pl: seq<Page>, i: int): Option<Page> {
    if 0 <= i < |pl| then Some(pl[i]) else None
  }

  /** The previous and next links under the content. */
  datatype Links = Links(prev: Option<Page>, next: Option<Page>)

  /** `pageList[pageIndex - 1] && ...` and `pageList[pageIndex + 1] && ...`. */
  function Neighbours(pl: seq<Page>, path: string): (links: Links)
    ensures var i := FindIndex(pl, path);
      && (links.prev.Some? <==> i >= 1)
      && (links.prev.Some? ==> links.prev.value == pl[i - 1])
      && (links.next.Some? <==> i + 1 < |pl|)
      && (links.next.Some? ==> links.next.value == pl[i + 1])
  {
    var i := FindIndex(pl, path);
    Links(At(pl, i - 1), At(pl, i + 1))
  }

  /** A path that is no page has no previous link, and its next link is the first page. */
  lemma UnknownPathLinksToFirst(pl: seq<Page>, path: string)
    requires forall k :: 0 <= k < |pl| ==> pl[k].path != path
    ensures Neighbours(pl, path) == Links(None, if pl == [] then None else Some(pl[0]))
  {
  }

  // ---------------------------------------------------------------- titles

  /** Setting `[path, name]` pairs into a Map in order. */
  function Assign(m: map<string, string>, ps: seq<Page>): map<string, string>
    decreases |ps|
  {
    if ps == [] then m else Assign(m, ps[..|ps| - 1])[ps[|ps| - 1].path := ps[|ps| - 1].name]
  }

  /** The order tableOfContentsMap sets one entry's pairs: children first, then its own. */
  function SetOrder(e: Entry): seq<Page> {
    ChildPages(e.slug, ChildrenOf(e)) + [Page(TopPath(e), e.name)]
  }

  /** The titles the first n entries set: tableOfContentsMap after n rounds of the outer loop. */
  function Titles(toc: Toc, n: nat): map<string, string>
    requires n <= |toc|
  {
    if n == 0 then map[] else Assign(Titles(toc, n - 1), SetOrder(toc[n - 1]))
  }

  /** tableOfContentsMap. */
  function TitleMap(toc: Toc): map<string, string> {
    Titles(toc, |toc|)
  }

  /** `tableOfContentsMap.get(path) || ""`. */
  function PageTitle(titles: map<string, string>, path: string): string {
    if path in titles then titles[path] else ""
  }

  /** Some page of `ps` has path `p`. */
  predicate HasPath(ps: seq<Page>, p: string) {
    exists k :: 0 <= k < |ps| && ps[k].path == p
  }

  lemma HasPathConcat(a: seq<Page>, b: seq<Page>, p: string)
    ensures HasPath(a + b, p) <==> HasPath(a, p) || HasPath(b, p)
  {
    var ab := a + b;
    if HasPath(ab, p) {
      var k :| 0 <= k < |ab| && ab[k].path == p;
      if k < |a| {
        assert a[k].path == p;
      } else {
        assert b[k - |a|].path == p;
      }
    }
    if HasPath(a, p) {
      var k :| 0 <= k < |a| && a[k].path == p;
      assert ab[k].path == p;
    }
    if HasPath(b, p) {
      var k :| 0 <= k < |b| && b[k].path == p;
      assert ab[|a| + k].path == p;
    }
  }

  lemma {:induction false} AssignKeys(m: map<string, string>, ps: seq<Page>, p: string)
    ensures p in Assign(m, ps) <==> p in m || HasPath(ps, p)
    decreases |ps|
  {
    if ps != [] {
      var init, last := ps[..|ps| - 1], ps[|ps| - 1];
      AssignKeys(m, init, p);
      assert ps == init + [last];
      HasPathConcat(init, [last], p);
      assert HasPath([last], p) <==> last.path == p by {
        if last.path == p {
          assert [last][0].path == p;
        }
      }
    }
  }

  /** A path set by no pair keeps its value. */
  lemma {:induction false} AssignKeeps(m: map<string, string>, ps: seq<Page>, p: string)
    requires p in m && forall k :: 0 <= k < |ps| ==> ps[k].path != p
    ensures p in Assign(m, ps) && Assign(m, ps)[p] == m[p]
    decreases |ps|
  {
    if ps != [] {
      var init := ps[..|ps| - 1];
      forall k | 0 <= k < |init|
        ensures init[k].path != p
      {
        assert init[k] == ps[k];
      }
      AssignKeeps(m, init, p);
    }
  }

  /** The last pair that sets a path decides its value. */
  lemma {:induction false} AssignLast(m: map<string, string>, ps: seq<Page>, i: nat)
    requires i < |ps| && forall k :: i < k < |ps| ==> ps[k].path != ps[i].path
    ensures ps[i].path in Assign(m, ps) && Assign(m, ps)[ps[i].path] == ps[i].name
    decreases |ps|
  {
    if i < |ps| - 1 {
      var init := ps[..|ps| - 1];
      forall k | i < k < |init|
        ensures init[k].path != init[i].path
      {
        assert init[k] == ps[k];
      }
      AssignLast(m, init, i);
    }
  }

  /** An entry sets the paths of exactly the pages it contributes. */
  lemma SetOrderPaths(e: Entry, p: string)
    ensures HasPath(SetOrder(e), p) <==> HasPath(EntryPages(e), p)
  {
    var top, children := [Page(TopPath(e), e.name)], ChildPages(e.slug, ChildrenOf(e));
    HasPathConcat(children, top, p);
    HasPathConcat(top, children, p);
  }

  /** The first n entries set a title for path `p` exactly when one of their pages has it. */
  predicate KeysMatch(toc: Toc, n: nat, p: string)
    requires n <= |toc|
  {
    p in Titles(toc, n) <==> HasPath(Pages(toc, n), p)
  }

  /** The first n entries set a title for exactly the paths of their pages. */
  lemma TitleMapKeys(toc: Toc, n: nat, p: string)
    requires n <= |toc|
    ensures p in Titles(toc, n) <==> HasPath(Pages(toc, n), p)
  {
    KeysMatchPrefix(toc, n, p);
  }

  lemma {:induction false} KeysMatchPrefix(toc: Toc, n: nat, p: string)
    requires n <= |toc|
    ensures KeysMatch(toc, n, p)
    decreases n
  {
    if n > 0 {
      KeysMatchPrefix(toc, n - 1, p);
      TitleKeysStep(toc, n, p);
    }
  }

  /** One more entry keeps the titles' keys and the pages' paths in step. */
  lemma TitleKeysStep(toc: Toc, n: nat, p: string)
    requires 0 < n <= |toc| && KeysMatch(toc, n - 1, p)
    ensures KeysMatch(toc, n, p)
  {
    var e := toc[n - 1];
    AssignKeys(Titles(toc, n - 1), SetOrder(e), p);
    SetOrderPaths(e, p);
    HasPathConcat(Pages(toc, n - 1), EntryPages(e), p);
  }

  /** No two pages of the list share a path. */
  predicate DistinctPaths(pl: seq<Page>) {
    forall k, l :: 0 <= k < l < |pl| ==> pl[k].path != pl[l].path
  }

  /** Within the entry's own pages, the pair set last for a page's path is that page's. */
  lemma EntryTitle(m: map<string, string>, e: Entry, q: nat)
    requires q < |EntryPages(e)| && DistinctPaths(EntryPages(e))
    ensures EntryPages(e)[q].path in Assign(m, SetOrder(e))
    ensures Assign(m, SetOrder(e))[EntryPages(e)[q].path] == EntryPages(e)[q].name
  {
    var cs := ChildrenOf(e);
    var so, ep := SetOrder(e), EntryPages(e);
    if q == 0 {
      assert so[|cs|] == ep[0];
      AssignLast(m, so, |cs|);
    } else {
      assert so[q - 1] == ep[q];
      forall k | q - 1 < k < |so|
        ensures so[k].path != so[q - 1].path
      {
        if k < |cs| {
          assert so[k] == ep[k + 1];
        } else {
          assert so[k] == ep[0];
        }
      }
      AssignLast(m, so, q - 1);
    }
  }

  /** Both halves of a list with distinct paths have distinct paths. */
  lemma DistinctHalves(a: seq<Page>, b: seq<Page>)
    requires DistinctPaths(a + b)
    ensures DistinctPaths(a) && DistinctPaths(b)
  {
    forall x, y | 0 <= x < y < |a|
      ensures a[x].path != a[y].path
    {
      assert (a + b)[x] == a[x] && (a + b)[y] == a[y];
    }
    forall x, y | 0 <= x < y < |b|
      ensures b[x].path != b[y].path
    {
      assert (a + b)[|a| + x] == b[x] && (a + b)[|a| + y] == b[y];
    }
  }

  /** With distinct paths, the last entry sets no path of an earlier page. */
  lemma EarlierNotReset(a: seq<Page>, last: Entry, k: nat)
    requires k < |a| && DistinctPaths(a + EntryPages(last))
    ensures forall x :: 0 <= x < |SetOrder(last)| ==> SetOrder(last)[x].path != a[k].path
  {
    var b := EntryPages(last);
    forall x | 0 <= x < |SetOrder(last)|
      ensures SetOrder(last)[x].path != a[k].path
    {
      var q := SetOrder(last)[x].path;
      SetOrderPaths(last, q);
      assert HasPath(SetOrder(last), q);
      var y :| 0 <= y < |b| && b[y].path == q;
      assert (a + b)[|a| + y] == b[y] && (a + b)[k] == a[k];
    }
  }

  /** When paths are distinct, the first n entries give each of their pages its own name as title. */
  lemma {:induction false} TitleMapValue(toc: Toc, n: nat, k: nat)
    requires n <= |toc| && k < |Pages(toc, n)| && DistinctPaths(Pages(toc, n))
    ensures Pages(toc, n)[k].path in Titles(toc, n)
    ensures Titles(toc, n)[Pages(toc, n)[k].path] == Pages(toc, n)[k].name
    decreases n
  {
    var last := toc[n - 1];
    var a, b := Pages(toc, n - 1), EntryPages(last);
    DistinctHalves(a, b);
    if k < |a| {
      TitleMapValue(toc, n - 1, k);
      EarlierNotReset(a, last, k);
      AssignKeeps(Titles(toc, n - 1), SetOrder(last), a[k].path);
      assert (a + b)[k] == a[k];
    } else {
      assert (a + b)[k] == b[k - |a|];
      EntryTitle(Titles(toc, n - 1), last, k - |a|);
    }
  }

  /**
   * pageTitle: under distinct paths, a path in pageList gets its page's name
   * and any other path gets "".
   */
  lemma PageTitleOfPath(toc: Toc, path: string)
    requires DistinctPaths(PageList(toc))
    ensures var pl, i := PageList(toc), FindIndex(PageList(toc), path);
      PageTitle(TitleMap(toc), path) == if i == -1 then "" else pl[i].name
  {
    var pl := PageList(toc);
    var i := FindIndex(pl, path);
    TitleMapKeys(toc, |toc|, path);
    if i != -1 {
      TitleMapValue(toc, |toc|, i);
    }
  }

  /** tableOfContentsMap built as the source builds it: children set first, then the entry itself. */
  method BuildTitleMap(toc: Toc) returns (titles: map<string, string>)
    ensures titles == TitleMap(toc)
  {
    titles := map[];
    var i := 0;
    while i < |toc|
      invariant 0 <= i <= |toc|
      invariant titles == Titles(toc, i)
    {
      titles := SetEntryTitles(titles, toc[i]);
      TitlesNext(toc, i);
      i := i + 1;
    }
  }

  lemma TitlesNext(toc: Toc, i: nat)
    requires i < |toc|
    ensures Titles(toc, i + 1) == Assign(Titles(toc, i), SetOrder(toc[i]))
  {
  }

  /** One round of the outer loop: the entry's children's titles, then its own. */
  method SetEntryTitles(before: map<string, string>, e: Entry) returns (titles: map<string, string>)
    ensures titles == Assign(before, SetOrder(e))
  {
    titles := before;
    if e.children.Some? {
      var cs := e.children.value;
      var j := 0;
      while j < |cs|
        invariant 0 <= j <= |cs|
        invariant titles == Assign(before, ChildPages(e.slug, cs[..j]))
      {
        ChildPagesSnoc(e.slug, cs, j);
        AssignSnoc(before, ChildPages(e.slug, cs[..j]), Page(ChildPath(e.slug, cs[j]), cs[j].name));
        titles := titles[ChildPath(e.slug, cs[j]) := cs[j].name];
        j := j + 1;
      }
      assert cs[..j] == cs;
    }
    AssignSnoc(before, ChildPages(e.slug, ChildrenOf(e)), Page(TopPath(e), e.name));
    titles := titles[TopPath(e) := e.name];
  }

  lemma ChildPagesSnoc(slug: string, cs: seq<Child>, j: nat)
    requires j < |cs|
    ensures ChildPages(slug, cs[..j + 1]) == ChildPages(slug, cs[..j]) + [Page(ChildPath(slug, cs[j]), cs[j].name)]
  {
    assert cs[..j + 1][..j] == cs[..j];
  }

  lemma AssignSnoc(m: map<string, string>, ps: seq<Page>, x: Page)
    ensures Assign(m, ps + [x]) == Assign(m, ps)[x.path := x.name]
  {
    var q := ps + [x];
    assert q[..|q| - 1] == ps;
  }

  const SiteName: string := "Denonomicon"
  const TitleSeparator: string := " | "

  /** The `<title>`: the site name alone when there is no page title, `title | Denonomicon` otherwise. */
  function DocumentTitle(pageTitle: string): (title: string)
    ensures EndsWith(title, SiteName)
    ensures pageTitle == "" ==> title == SiteName
    ensures pageTitle != "" ==> StartsWith(title, pageTitle) && |title| == |pageTitle| + |TitleSeparator| + |SiteName|
    ensures pageTitle != "" ==> title[|pageTitle|..|pageTitle| + |TitleSeparator|] == TitleSeparator
  {
    if pageTitle == "" then SiteName
    else
      EndsWithConcat(pageTitle + TitleSeparator, SiteName);
      StartsWithConcat(pageTitle, TitleSeparator + SiteName);
      assert pageTitle + TitleSeparator + SiteName == pageTitle + (TitleSeparator + SiteName);
      assert (pageTitle + TitleSeparator + SiteName)[|pageTitle|..|pageTitle| + |TitleSeparator|] == TitleSeparator;
      pageTitle + TitleSeparator + SiteName
  }

  /** Distinct page titles give distinct document titles. */
  lemma DocumentTitleInjective(s: string, t: string)
    requires DocumentTitle(s) == DocumentTitle(t)
    ensures s == t
  {
    assert s == "" <==> |DocumentTitle(s)| == |SiteName|;
    assert t == "" <==> |DocumentTitle(t)| == |SiteName|;
    if s != "" {
      assert s + TitleSeparator + SiteName == "" + s + (TitleSeparator + SiteName);
      assert t + TitleSeparator + SiteName == "" + t + (TitleSeparator + SiteName);
      CancelAround("", s, t, TitleSeparator + SiteName);
    }
  }

  // ---------------------------------------------------------------- table-of-contents highlighting

  /** The entry's label is highlighted (`path === /slug`). */
  predicate TopActive(path: string, e: Entry) {
    path == TopPath(e)
  }

  /** A child's link is highlighted (`path === /slug/child`). */
  predicate ChildActive(path: string, e: Entry, c: Child) {
    path == ChildPath(e.slug, c)
  }

  /** The entry's checkbox is checked, which unfolds its children (`path.startsWith(/slug/)`). */
  predicate Expanded(path: string, e: Entry) {
    StartsWith(path, "/" + e.slug + "/")
  }

  /** The entry's checkbox is disabled: `!entry.children`, true only when the key is absent. */
  predicate Disabled(e: Entry) {
    e.children.None?
  }

  /** A highlighted child unfolds its section, and a highlighted section label is not itself unfolded. */
  lemma ActiveAndExpanded(path: string, e: Entry, c: Child)
    ensures ChildActive(path, e, c) ==> Expanded(path, e)
    ensures TopActive(path, e) ==> !Expanded(path, e)
  {
    if ChildActive(path, e, c) {
      StartsWithConcat("/" + e.slug + "/", c.slug);
    }
  }

  /** A disabled entry contributes only its own page. */
  lemma DisabledHasOnlyItsPage(e: Entry)
    requires Disabled(e)
    ensures EntryPages(e) == [Page(TopPath(e), e.name)]
  {
  }

  /**
   * Under distinct paths, the highlighted item of the table of contents is
   * the page pageIndex finds: entry i's label exactly when pageIndex is
   * EntryStart(i), and its child j exactly when pageIndex is EntryStart(i) + 1 + j.
   */
  lemma ActiveIsCurrentPage(toc: Toc, path: string, i: nat, j: nat)
    requires DistinctPaths(PageList(toc)) && i < |toc|
    ensures TopActive(path, toc[i]) <==> FindIndex(PageList(toc), path) == EntryStart(toc, i)
    ensures j < |ChildrenOf(toc[i])| ==>
      (ChildActive(path, toc[i], ChildrenOf(toc[i])[j])
       <==> FindIndex(PageList(toc), path) == EntryStart(toc, i) + 1 + j)
  {
    PageListAt(toc, i);
  }

  // ---------------------------------------------------------------- request handling

  const NotFound: string := "# 404 - Not Found\n" + "Whoops, the page does not seem to exist."

  /** What GET answers. */
  datatype Response = Redirect(pathname: string) | Render(content: string)

  /** `pathname.endsWith(".md")` and, if so, `pathname.slice(0, -3)`. */
  function StripMd(pathname: string): (r: Option<string>)
    ensures r.Some? <==> EndsWith(pathname, MdSuffix)
    ensures r.Some? ==> r.value + MdSuffix == pathname
  {
    if EndsWith(pathname, MdSuffix) then Some(pathname[..|pathname| - |MdSuffix|]) else None
  }

  /** getFileData(path): the text of `${cwd}/static/contents${path}.md`, if there is such a file. */
  function FileData(files: map<string, string>, cwd: string, path: string): Option<string> {
    var name := cwd + "/static/contents" + path + MdSuffix;
    if name in files then Some(files[name]) else None
  }

  /**
   * handler.GET: a `.md` pathname is redirected to itself without the suffix,
   * stored through the `pathname` setter; any other pathname renders the file
   * for its normalised path, or the 404 text when there is none.
   */
  function Handle(pathname: string, files: map<string, string>, cwd: string): (r: Response)
    ensures r.Redirect? <==> EndsWith(pathname, MdSuffix)
    ensures r.Redirect? ==> r.pathname == UrlPath.SetPathname(pathname[..|pathname| - |MdSuffix|])
    ensures r.Render? ==> r.content == match FileData(files, cwd, Normalize(pathname))
                                       case Some(text) => text
                                       case None => NotFound
  {
    match StripMd(pathname)
    case Some(stripped) => Redirect(UrlPath.SetPathname(stripped))
    case None =>
      match FileData(files, cwd, Normalize(pathname))
      case Some(text) => Render(text)
      case None => Render(NotFound)
  }

  /**
   * Each redirect shortens the pathname, so redirects of a pathname end. When
   * no dot segment is left once the suffix is gone, the redirect is the
   * pathname minus exactly its `.md`; otherwise the setter removes more.
   */
  lemma RedirectShortens(pathname: string, files: map<string, string>, cwd: string)
    requires Handle(pathname, files, cwd).Redirect?
    ensures |Handle(pathname, files, cwd).pathname| < |pathname|
    ensures UrlPath.Plain(pathname[..|pathname| - |MdSuffix|]) ==>
              Handle(pathname, files, cwd).pathname + MdSuffix == pathname
  {
    var stripped := pathname[..|pathname| - |MdSuffix|];
    UrlPath.SetPathnameLength(stripped);
    if UrlPath.Plain(stripped) {
      UrlPath.SetPathnamePlain(stripped);
      assert stripped + MdSuffix == pathname;
    }
  }

  /** `/a/..md` is redirected to `/a/`, and `/a/...md` to `/`. */
  lemma RedirectDropsDotSegments(files: map<string, string>, cwd: string)
    ensures Handle("/a/..md", files, cwd) == Redirect("/a/")
    ensures Handle("/a/...md", files, cwd) == Redirect("/")
  {
    UrlPath.TrailingDotSegments();
    assert EndsWith("/a/..md", MdSuffix) && "/a/..md"[..4] == "/a/.";
    assert EndsWith("/a/...md", MdSuffix) && "/a/...md"[..5] == "/a/..";
  }

  /** The strip rule undoes the suffix both URL builders add. */
  lemma StripInvertsBuilders(path: string, baseUrl: string)
    ensures StripMd(FileURL(path, baseUrl)) == Some(baseUrl + ContentsSegment + path)
    ensures StripMd(DocURL(path)) == Some(DocPath + path)
  {
  }

  // ---------------------------------------------------------------- the page

  /** What the page shows that depends on the path: title, links and URLs. */
  datatype View = View(title: string, links: Links, sourceUrl: string, editUrl: string)

  /** The page component for `pathname` under `origin`. */
  function PageView(toc: Toc, pathname: string, origin: string): View {
    var path := Normalize(pathname);
    var pl := PageList(toc);
    View(DocumentTitle(PageTitle(TitleMap(toc), path)), Neighbours(pl, path),
         FileURL(path, origin), DocURL(path))
  }

  /**
   * For the page at index k of pageList (paths distinct), the document title
   * carries the page's name, the links are its neighbours in the list, and
   * the markdown and edit URLs are built from its path.
   */
  lemma ViewOfListedPage(toc: Toc, origin: string, k: nat)
    requires DistinctPaths(PageList(toc)) && k < |PageList(toc)|
    requires PageList(toc)[k].path != "" && PageList(toc)[k].path != "/"
    ensures var pl := PageList(toc); var v := PageView(toc, pl[k].path, origin);
      && v.title == DocumentTitle(pl[k].name)
      && v.links == Links(At(pl, k - 1), At(pl, k + 1))
      && v.sourceUrl == FileURL(pl[k].path, origin)
      && v.editUrl == DocURL(pl[k].path)
  {
    var pl := PageList(toc);
    var path := pl[k].path;
    TitleOfListedPage(toc, k);
    LinksOfListedPage(pl, k);
    assert Normalize(path) == path;
  }

  lemma TitleOfListedPage(toc: Toc, k: nat)
    requires DistinctPaths(PageList(toc)) && k < |PageList(toc)|
    ensures PageTitle(TitleMap(toc), PageList(toc)[k].path) == PageList(toc)[k].name
  {
    FindIndexOfDistinct(PageList(toc), k);
    PageTitleOfPath(toc, PageList(toc)[k].path);
  }

  lemma LinksOfListedPage(pl: seq<Page>, k: nat)
    requires DistinctPaths(pl) && k < |pl|
    ensures Neighbours(pl, pl[k].path) == Links(At(pl, k - 1), At(pl, k + 1))
  {
    FindIndexOfDistinct(pl, k);
  }

  /** Under distinct paths, pageIndex of a listed page's path is that page's index. */
  lemma FindIndexOfDistinct(pl: seq<Page>, k: nat)
    requires DistinctPaths(pl) && k < |pl|
    ensures FindIndex(pl, pl[k].path) == k
  {
    var r := FindIndex(pl, pl[k].path);
    assert r != -1;
    assert pl[r].path == pl[k].path;
  }
}
