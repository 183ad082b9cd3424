/**
  The blog's article table and the three queries the pages run over it:
  the published articles newest first, lookup by id, and the published
  articles carrying a tag (compared without regard to letter case).

  Every query is stated over an arbitrary table and then bound to the
  site's own table, `Articles`.
 */
module ArticleQueries {
  import opened Wrappers

  datatype Status = Draft | Published

  /** An article without its body text; `publishedAt` is a timestamp in
      milliseconds since the epoch (what `new Date(...).getTime()` yields). */
  datatype Article = Article(
    id: string,
    title: string,
    tags: seq<string>,
    publishedAt: int,
    status: Status,
    readTime: nat)


  // ---------------------------------------------------------------------------
  // Filtering

  /** `Array.prototype.filter`: the elements satisfying `p`, in their order,
      each as often as it occurs in `s`. */
  function Filter(p: Article -> bool, s: seq<Article>): (r: seq<Article>)
    ensures |r| <= |s|
    ensures forall x :: x in r <==> x in s && p(x)
    ensures multiset(r) <= multiset(s)
    ensures forall x :: multiset(r)[x] == if p(x) then multiset(s)[x] else 0
    ensures IsSubsequence(r, s)
  {
    if s == [] then []
    else
      var rest := Filter(p, s[1..]);
      assert s == [s[0]] + s[1..];
      if p(s[0]) then [s[0]] + rest else rest
  }

  /** Filtering by a predicate every element satisfies changes nothing. */
  lemma {:induction false} FilterKeepsAll(p: Article -> bool, s: seq<Article>)
    requires forall k :: 0 <= k < |s| ==> p(s[k])
    ensures Filter(p, s) == s
  {
    if s != [] {
      FilterKeepsAll(p, s[1..]);
    }
  }

  /** Predicates that agree on every element of `s` filter it alike. */
  lemma {:induction false} FilterAgree(p: Article -> bool, q: Article -> bool, s: seq<Article>)
    requires forall k :: 0 <= k < |s| ==> p(s[k]) == q(s[k])
    ensures Filter(p, s) == Filter(q, s)
  {
    if s != [] {
      FilterAgree(p, q, s[1..]);
    }
  }

  /** `r` is obtained from `s` by deleting elements, keeping the order of the rest. */
  predicate IsSubsequence(r: seq<Article>, s: seq<Article>)
  {
    || r == []
    || (s != [] && ((r[0] == s[0] && IsSubsequence(r[1..], s[1..])) || IsSubsequence(r, s[1..])))
  }

  predicate IsPublished(a: Article) {
    a.status == Published
  }

  // ---------------------------------------------------------------------------
  // Newest-first ordering

  /** Non-increasing by publication time. */
  ghost predicate NewestFirst(s: seq<Article>) {
    forall i, j :: 0 <= i < j < |s| ==> s[i].publishedAt >= s[j].publishedAt
  }

  /** Places `a` before the first article not newer than it; `a` came before
      every element of `s` in the input, so equal timestamps keep their order. */
  function Insert(a: Article, s: seq<Article>): (r: seq<Article>)
    ensures |r| == |s| + 1
  {
    if s == [] || s[0].publishedAt <= a.publishedAt then [a] + s
    else [s[0]] + Insert(a, s[1..])
  }

  /** Insertion adds exactly `a`. */
  lemma {:induction false} InsertPermutes(a: Article, s: seq<Article>)
    ensures multiset(Insert(a, s)) == multiset(s) + multiset{a}
  {
    if s != [] && s[0].publishedAt > a.publishedAt {
      InsertPermutes(a, s[1..]);
      assert s == [s[0]] + s[1..];
    }
  }

  /** Inserting into a newest-first sequence keeps it newest first. */
  lemma {:induction false} InsertNewestFirst(a: Article, s: seq<Article>)
    requires NewestFirst(s)
    ensures NewestFirst(Insert(a, s))
  {
    if s != [] && s[0].publishedAt > a.publishedAt {
      var tail := s[1..];
      assert s == [s[0]] + tail;
      NewestFirstCons(s[0], tail);
      InsertNewestFirst(a, tail);
      var rest := Insert(a, tail);
      InsertPermutes(a, tail);
      forall j | 0 <= j < |rest| ensures s[0].publishedAt >= rest[j].publishedAt {
        assert rest[j] in multiset(rest);
        if rest[j] != a {
          assert rest[j] in multiset(tail);
        }
      }
      NewestFirstCons(s[0], rest);
    }
  }

  /** `[b] + s` is newest first exactly when `s` is and `b` is at least as new
      as every element of `s`. */
  lemma NewestFirstCons(b: Article, s: seq<Article>)
    ensures NewestFirst([b] + s) <==> NewestFirst(s) && forall j :: 0 <= j < |s| ==> b.publishedAt >= s[j].publishedAt
  {
    var r := [b] + s;
    if NewestFirst(s) && forall j :: 0 <= j < |s| ==> b.publishedAt >= s[j].publishedAt {
      forall i, j | 0 <= i < j < |r| ensures r[i].publishedAt >= r[j].publishedAt {
        assert r[j] == s[j - 1];
        if i > 0 {
          assert r[i] == s[i - 1];
        }
      }
    }
    if NewestFirst(r) {
      forall i, j | 0 <= i < j < |s| ensures s[i].publishedAt >= s[j].publishedAt {
        assert s[i] == r[i + 1] && s[j] == r[j + 1];
      }
      forall j | 0 <= j < |s| ensures b.publishedAt >= s[j].publishedAt {
        assert r[0] == b && s[j] == r[j + 1];
        assert r[0].publishedAt >= r[j + 1].publishedAt;
      }
    }
  }

  /** A stable sort by the comparator `b.publishedAt - a.publishedAt`
      (`Array.prototype.sort` is stable): each head is inserted into the
      sorted tail. */
  function SortNewestFirst(s: seq<Article>): (r: seq<Article>)
    ensures |r| == |s|
  {
    if s == [] then [] else Insert(s[0], SortNewestFirst(s[1..]))
  }

  /** The sort is a permutation. */
  lemma {:induction false} SortPermutes(s: seq<Article>)
    ensures multiset(SortNewestFirst(s)) == multiset(s)
  {
    if s != [] {
      SortPermutes(s[1..]);
      InsertPermutes(s[0], SortNewestFirst(s[1..]));
      assert s == [s[0]] + s[1..];
    }
  }

  /** The sort's result is newest first. */
  lemma {:induction false} SortIsNewestFirst(s: seq<Article>)
    ensures NewestFirst(SortNewestFirst(s))
  {
    if s != [] {
      SortIsNewestFirst(s[1..]);
      InsertNewestFirst(s[0], SortNewestFirst(s[1..]));
    }
  }

  // ---------------------------------------------------------------------------
  // The three queries over an arbitrary table

  /** Published articles, newest first. */
  function PublishedIn(table: seq<Article>): (r: seq<Article>)
  {
    SortNewestFirst(Filter(IsPublished, table))
  }

  /** The published articles are exactly the published entries of the table,
      each as often as it occurs there, and they come newest first. */
  lemma PublishedInSpec(table: seq<Article>)
    ensures forall a :: a in PublishedIn(table) ==> IsPublished(a)
    ensures multiset(PublishedIn(table)) == multiset(Filter(IsPublished, table))
    ensures forall a :: a in table && IsPublished(a) ==> a in PublishedIn(table)
    ensures NewestFirst(PublishedIn(table))
  {
    var f := Filter(IsPublished, table);
    SortPermutes(f);
    SortIsNewestFirst(f);
    forall a | a in PublishedIn(table) ensures IsPublished(a) {
      assert a in multiset(PublishedIn(table));
    }
    forall a | a in table && IsPublished(a) ensures a in PublishedIn(table) {
      assert a in multiset(f);
    }
  }

  /** `Array.prototype.find` on the id: the first article with that id. */
  function FindById(table: seq<Article>, id: string): (r: Option<Article>)
    ensures r.None? <==> forall k :: 0 <= k < |table| ==> table[k].id != id
    ensures r.Some? ==> exists k :: 0 <= k < |table| && table[k] == r.value && FirstWithId(table, id, k)
  {
    if table == [] then None
    else if table[0].id == id then
      assert FirstWithId(table, id, 0);
      Some(table[0])
    else
      var r := FindById(table[1..], id);
      if r.Some? then
        var k :| 0 <= k < |table[1..]| && table[1..][k] == r.value && FirstWithId(table[1..], id, k);
        assert FirstWithId(table, id, k + 1);
        r
      else r
  }

  /** Index `k` is the first position in `table` whose id is `id`. */
  predicate FirstWithId(table: seq<Article>, id: string, k: int) {
    0 <= k < |table| && table[k].id == id && forall j :: 0 <= j < k ==> table[j].id != id
  }

  /** `String.prototype.toLowerCase`, restricted to ASCII letters. */
  function ToLower(s: string): (r: string)
    ensures |r| == |s|
    ensures forall i :: 0 <= i < |s| ==> r[i] == LowerChar(s[i])
  {
    if s == [] then [] else [LowerChar(s[0])] + ToLower(s[1..])
  }

  function LowerChar(c: char): char {
    if 'A' <= c <= 'Z' then (c as int + 32) as char else c
  }

  /** Some tag of `a` equals the query once both are lower-cased. */
  predicate HasTag(a: Article, tag: string) {
    exists t :: t in a.tags && ToLower(t) == ToLower(tag)
  }

  /** The published articles carrying the tag, in table order. */
  function TaggedIn(table: seq<Article>, tag: string): (r: seq<Article>)
  {
    Filter(a => IsPublished(a) && HasTag(a, tag), table)
  }

  /** An article is in the result exactly when it is a published table entry
      with a matching tag, as often as it occurs there; the result keeps
      table order. */
  lemma TaggedInSpec(table: seq<Article>, tag: string)
    ensures forall a :: a in TaggedIn(table, tag) <==> a in table && IsPublished(a) && HasTag(a, tag)
    ensures forall a :: multiset(TaggedIn(table, tag))[a] == if IsPublished(a) && HasTag(a, tag) then multiset(table)[a] else 0
    ensures IsSubsequence(TaggedIn(table, tag), table)
  {
  }

  /** Lower-casing is idempotent. */
  lemma {:induction false} ToLowerIdempotent(s: string)
    ensures ToLower(ToLower(s)) == ToLower(s)
  {
    if s != [] {
      ToLowerIdempotent(s[1..]);
    }
  }

  /** Two queries that agree once lower-cased select the same articles. */
  lemma TaggedInCaseInsensitive(table: seq<Article>, q1: string, q2: string)
    requires ToLower(q1) == ToLower(q2)
    ensures TaggedIn(table, q1) == TaggedIn(table, q2)
  {
    FilterAgree(a => IsPublished(a) && HasTag(a, q1), a => IsPublished(a) && HasTag(a, q2), table);
  }

  /** In particular the query and its lower-cased form select the same articles. */
  lemma TaggedInLowerQuery(table: seq<Article>, q: string)
    ensures TaggedIn(table, ToLower(q)) == TaggedIn(table, q)
  {
    ToLowerIdempotent(q);
    TaggedInCaseInsensitive(table, ToLower(q), q);
  }
}

/** The site's own table and the three queries as the pages call them. */
module ArticleTable {
  import opened Wrappers
  import opened ArticleQueries

  /** The site's table, in source order. Each entry is its own function, so
      that a proof unfolds only the entries it needs. */
  function Articles(): seq<Article>
  {
    [DevTools(), FutureCollaboration(), Revolution2025(), AgenticMarketing()]
  }

  function DevTools(): Article {
    Article("ai-powered-development-tools",
            "Getting Started with AI-Powered Development Tools",
            ["AI", "Development", "Tools"],
            1751718600000,  // 2025-07-05 8:30:00 -0400
            Published, 5)
  }

  function FutureCollaboration(): Article {
    Article("future-ai-collaboration",
            "The Future of Human-AI Collaboration in Software Development",
            ["AI", "Future", "Opinion"],
            1706140800000,  // 2024-01-25, read as UTC midnight
            Published, 6)
  }

  function Revolution2025(): Article {
    Article("ai-revolution-2025",
            "The AI Revolution in 2025: Top Trends Every Developer Should Know",
            ["AI", "MachineLearning", "SoftwareDevelopment", "TechTrends", "DevTools",
             "ArtificialIntelligence", "Programming", "Innovation"],
            1751801400000,  // 2025-07-06 7:30:00 -0400
            Published, 12)
  }

  function AgenticMarketing(): Article {
    Article("agentic-ai-marketing-term",
            "The \"Agent\" in Agentic AI Is a Marketing Term",
            ["AI", "AgenticAI", "Opinion"],
            1751893200000,  // 2025-07-07 9:00:00 -0400
            Published, 8)
  }

  function GetPublishedArticles(): seq<Article>
  {
    PublishedIn(Articles())
  }

  function GetArticleById(id: string): Option<Article>
  {
    FindById(Articles(), id)
  }

  function GetArticlesByTag(tag: string): seq<Article>
  {
    TaggedIn(Articles(), tag)
  }

  /** No two entries of the site's table share an id. */
  lemma TableIdsDistinct()
    ensures forall i, j :: 0 <= i < j < |Articles()| ==> Articles()[i].id != Articles()[j].id
  {
  }

  /** Hence an id selects at most one entry: the lookup returns the entry
      with that id whenever there is one, and nothing otherwise. */
  lemma GetArticleByIdUnique(id: string)
    ensures forall k :: 0 <= k < |Articles()| && Articles()[k].id == id ==> GetArticleById(id) == Some(Articles()[k])
    ensures GetArticleById(id).None? <==> forall a :: a in Articles() ==> a.id != id
  {
    TableIdsDistinct();
    var r := GetArticleById(id);
    if r.Some? {
      var k :| 0 <= k < |Articles()| && Articles()[k] == r.value && FirstWithId(Articles(), id, k);
    }
  }

  /** One step of `Insert` past an article newer than the inserted one. */
  lemma InsertPast(a: Article, b: Article, s: seq<Article>)
    requires b.publishedAt > a.publishedAt
    ensures Insert(a, [b] + s) == [b] + Insert(a, s)
  {
    assert ([b] + s)[1..] == s;
  }

  /** Inserting an article older than every element of `s` appends it. */
  lemma {:induction false} InsertOldest(a: Article, s: seq<Article>)
    requires forall k :: 0 <= k < |s| ==> s[k].publishedAt > a.publishedAt
    ensures Insert(a, s) == s + [a]
  {
    if s != [] {
      InsertOldest(a, s[1..]);
      assert s == [s[0]] + s[1..];
    }
  }

  /** The sort inserts the head into the sorted tail. */
  lemma SortCons(a: Article, s: seq<Article>)
    ensures SortNewestFirst([a] + s) == Insert(a, SortNewestFirst(s))
  {
    assert ([a] + s)[1..] == s;
  }

  lemma SortTwo(a2: Article, a3: Article)
    requires a3.publishedAt > a2.publishedAt
    ensures SortNewestFirst([a2, a3]) == [a3, a2]
  {
    SortCons(a3, []);
    assert [a3] + [] == [a3];
    SortCons(a2, [a3]);
    assert [a2] + [a3] == [a2, a3];
    InsertOldest(a2, [a3]);
  }

  lemma SortThree(a1: Article, a2: Article, a3: Article)
    requires a3.publishedAt > a2.publishedAt > a1.publishedAt
    ensures SortNewestFirst([a1, a2, a3]) == [a3, a2, a1]
  {
    SortTwo(a2, a3);
    SortCons(a1, [a2, a3]);
    assert [a1] + [a2, a3] == [a1, a2, a3];
    InsertOldest(a1, [a3, a2]);
  }

  /** Sorting four articles whose timestamps are ordered a3 > a2 > a0 > a1:
      a0 lands between a2 and a1. */
  lemma SortFour(a0: Article, a1: Article, a2: Article, a3: Article)
    requires a3.publishedAt > a2.publishedAt > a0.publishedAt > a1.publishedAt
    ensures SortNewestFirst([a0, a1, a2, a3]) == [a3, a2, a0, a1]
  {
    SortThree(a1, a2, a3);
    SortCons(a0, [a1, a2, a3]);
    assert [a0] + [a1, a2, a3] == [a0, a1, a2, a3];
    InsertAfter(a0, [a3, a2], [a1]);
    assert [a3, a2] + [a1] == [a3, a2, a1];
    assert Insert(a0, [a1]) == [a0, a1];
  }

  /** Inserting past a prefix of newer articles. */
  lemma {:induction false} InsertAfter(a: Article, newer: seq<Article>, s: seq<Article>)
    requires forall k :: 0 <= k < |newer| ==> newer[k].publishedAt > a.publishedAt
    ensures Insert(a, newer + s) == newer + Insert(a, s)
  {
    if newer != [] {
      assert (newer + s)[0] == newer[0];
      assert (newer + s)[1..] == newer[1..] + s;
      InsertAfter(a, newer[1..], s);
    } else {
      assert newer + s == s;
    }
  }

  /** On the site's table the listing is the newest article first and the
      2024 article last. */
  lemma GetPublishedArticlesOrder()
    ensures GetPublishedArticles() == [AgenticMarketing(), Revolution2025(), DevTools(), FutureCollaboration()]
  {
    var a0, a1, a2, a3 := DevTools(), FutureCollaboration(), Revolution2025(), AgenticMarketing();
    assert a0.publishedAt == 1751718600000 && a1.publishedAt == 1706140800000;
    assert a2.publishedAt == 1751801400000 && a3.publishedAt == 1751893200000;
    assert IsPublished(a0) && IsPublished(a1) && IsPublished(a2) && IsPublished(a3);
    FilterKeepsAll(IsPublished, [a0, a1, a2, a3]);
    SortFour(a0, a1, a2, a3);
  }
}
