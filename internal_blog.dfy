/**
 * The internal blog: the list of published posts, newest first, each shown with the first
 * line of its content as an excerpt, and the single-post view, whose body turns line
 * breaks into HTML `<br />` tags and whose footer names the categories and tags.
 */
module InternalBlog {
  import opened Types
  import opened Text

  /** Newer posts come first: timestamps never increase down the list. */
  predicate NewestFirst(s: seq<BlogPost>) {
    forall i, j :: 0 <= i < j < |s| ==> s[i].timestamp >= s[j].timestamp
  }

  /** A post no older than the head of a newest-first list can go in front of it. */
  lemma ConsNewest(p: BlogPost, s: seq<BlogPost>)
    requires NewestFirst(s)
    requires s == [] || s[0].timestamp <= p.timestamp
    ensures NewestFirst([p] + s)
  {
    var r := [p] + s;
    forall i, j | 0 <= i < j < |r| ensures r[i].timestamp >= r[j].timestamp {
      if i == 0 && j > 1 {
        assert r[1].timestamp >= r[j].timestamp;
      }
    }
  }

  /** Places `p` before the first post that is not newer than it. */
  function InsertByTime(p: BlogPost, s: seq<BlogPost>): (r: seq<BlogPost>)
    requires NewestFirst(s)
    ensures NewestFirst(r)
    ensures multiset(r) == multiset(s) + multiset{p}
    ensures r[0] == p || (s != [] && r[0] == s[0])
  {
    if s == [] || s[0].timestamp <= p.timestamp then
      ConsNewest(p, s);
      [p] + s
    else
      var rest := InsertByTime(p, s[1..]);
      assert s == [s[0]] + s[1..];
      ConsNewest(s[0], rest);
      [s[0]] + rest
  }

  /**
   * `[...posts].sort(...)` by publication time, newest first: the same posts, each as many
   * times as in the input, in non-increasing timestamp order. The input list is a value and
   * is not reordered.
   */
  function SortedPosts(posts: seq<BlogPost>): (r: seq<BlogPost>)
    ensures NewestFirst(r)
    ensures multiset(r) == multiset(posts)
    ensures |r| == |posts|
  {
    if posts == [] then []
    else
      assert posts == [posts[0]] + posts[1..];
      var r := InsertByTime(posts[0], SortedPosts(posts[1..]));
      assert |r| == |multiset(r)|;
      r
  }

  /** A list already newest first is left as it is. */
  lemma {:induction false} SortedPostsKeepsSorted(posts: seq<BlogPost>)
    requires NewestFirst(posts)
    ensures SortedPosts(posts) == posts
  {
    if posts != [] {
      SortedPostsKeepsSorted(posts[1..]);
      assert posts == [posts[0]] + posts[1..];
    }
  }

  /** Publishing a newer post and sorting puts it at the head of the list. */
  lemma NewestPostFirst(p: BlogPost, posts: seq<BlogPost>)
    requires forall q :: q in posts ==> q.timestamp < p.timestamp
    ensures SortedPosts([p] + posts)[0] == p
  {
    var r := SortedPosts([p] + posts);
    assert ([p] + posts)[1..] == posts;
    var rest := SortedPosts(posts);
    assert forall q :: q in rest ==> q in multiset(posts);
    assert rest == [] || rest[0].timestamp <= p.timestamp by {
      if rest != [] {
        assert rest[0] in multiset(posts);
      }
    }
  }

  /** `content.split('\n')[0]`: the content up to, not including, its first line break. */
  function Excerpt(content: string): (r: string)
    ensures '\n' !in r
    ensures StartsWith(content, r)
    ensures |r| < |content| ==> content[|r|] == '\n'
    ensures '\n' !in content ==> r == content
  {
    if content == [] || content[0] == '\n' then []
    else
      var rest := Excerpt(content[1..]);
      assert [content[0]] + rest == content[..|rest| + 1];
      [content[0]] + rest
  }

  const LineBreakTag: string := "<br />"

  /** `content.replace(/\n/g, '<br />')`: every line break replaced by the tag. */
  function BodyHtml(content: string): (r: string)
    ensures '\n' !in r
    ensures |r| == |content| + 5 * Count(content, '\n')
  {
    if content == [] then []
    else if content[0] == '\n' then LineBreakTag + BodyHtml(content[1..])
    else [content[0]] + BodyHtml(content[1..])
  }

  /** The replacement works line by line: it distributes over concatenation. */
  lemma {:induction false} BodyHtmlAppend(a: string, b: string)
    ensures BodyHtml(a + b) == BodyHtml(a) + BodyHtml(b)
  {
    if a == [] {
      assert a + b == b;
    } else {
      assert (a + b)[0] == a[0] && (a + b)[1..] == a[1..] + b;
      BodyHtmlAppend(a[1..], b);
    }
  }

  /** Text without line breaks is rendered unchanged. */
  lemma {:induction false} BodyHtmlWithoutBreaks(content: string)
    requires '\n' !in content
    ensures BodyHtml(content) == content
  {
    if content != [] {
      BodyHtmlWithoutBreaks(content[1..]);
    }
  }

  /** A lone line break renders as the tag. */
  lemma BodyHtmlOfBreak()
    ensures BodyHtml("\n") == LineBreakTag
  {
    assert BodyHtml("\n") == LineBreakTag + BodyHtml([]);
  }

  /** Two lines joined by a break render as the two lines joined by the tag. */
  lemma TwoLines(a: string, b: string)
    requires '\n' !in a && '\n' !in b
    ensures BodyHtml(a + "\n" + b) == a + LineBreakTag + b
  {
    calc {
      BodyHtml(a + "\n" + b);
      { BodyHtmlAppend(a + "\n", b); }
      BodyHtml(a + "\n") + BodyHtml(b);
      { BodyHtmlAppend(a, "\n"); }
      BodyHtml(a) + BodyHtml("\n") + BodyHtml(b);
      { BodyHtmlWithoutBreaks(a); BodyHtmlWithoutBreaks(b); BodyHtmlOfBreak(); }
      a + LineBreakTag + b;
    }
  }

  /** The footer: a categories line and a tags line, each only when its value is non-empty. */
  function FooterLines(post: BlogPost): (r: seq<string>)
    ensures |r| == (if post.categories != [] then 1 else 0) + (if post.tags != [] then 1 else 0)
    ensures post.categories != [] ==> r[0] == "Categories: " + post.categories
    ensures post.tags != [] ==> r[|r| - 1] == "Tags: " + post.tags
  {
    (if post.categories != [] then ["Categories: " + post.categories] else [])
    + (if post.tags != [] then ["Tags: " + post.tags] else [])
  }
}
