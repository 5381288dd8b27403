/**
 * The blog index: a fixed list of posts, category tabs derived from it, and
 * a search box matched case-insensitively against title and snippet.
 */
module Blog {
  import opened Seqs
  import opened Text
  import opened Listing

  datatype Post = Post(
    id: int,
    title: string,
    snippet: string,
    date: string,
    category: string,
    readTime: string,
    image: string)

  const Posts: seq<Post> := [
    Post(1, "Building Authentication with NextAuth & Supabase",
      "A complete guide to integrating OAuth providers with Supabase for seamless user login.",
      "June 2025", "Development", "5 min read", "/images/auth-article.jpg"),
    Post(2, "Styling Your Web App with Tailwind & Framer Motion",
      "Make your site feel alive with utility classes and slick animations.",
      "May 2025", "Design", "4 min read", "/images/styling-article.jpg"),
    Post(3, "Why Supabase is a Game-Changer for Devs",
      "Ditch Firebase? Learn why Supabase might be the better open-source option.",
      "April 2025", "Development", "6 min read", "/images/supabase-article.jpg"),
    Post(4, "The Future of Skills Platforms: Our Vision",
      "Explore what's next for SkillsConnect — from AI search to career tools.",
      "March 2025", "Company", "8 min read", "/images/future-article.jpg")
  ]

  function PostCategories(posts: seq<Post>): seq<string> {
    seq(|posts|, i requires 0 <= i < |posts| => posts[i].category)
  }

  /** The tabs: "All" then each post category once. */
  function Categories(posts: seq<Post>): (r: seq<string>)
    ensures |r| >= 1 && r[0] == AllTab
    ensures forall i :: 0 <= i < |posts| ==> posts[i].category in r
    ensures NoDup(r[1..])
    ensures forall c :: c in r[1..] ==> exists i :: 0 <= i < |posts| && posts[i].category == c
  {
    var cats := PostCategories(posts);
    var r := CategoryTabs(cats);
    assert forall i :: 0 <= i < |posts| ==> posts[i].category in r by {
      forall i | 0 <= i < |posts| ensures posts[i].category in r {
        assert cats[i] in cats;
        assert cats[i] in r[1..];
      }
    }
    r
  }

  /** The blog's tabs are "All", "Development", "Design" and "Company". */
  lemma BlogTabs()
    ensures Categories(Posts) == ["All", "Development", "Design", "Company"]
  {
    var dev, design, company := "Development", "Design", "Company";
    var cats := PostCategories(Posts);
    assert cats == [dev, design, dev, company];
    RepeatedFirstDropped(dev, design, company);
    assert [AllTab] + [dev, design, company] == ["All", "Development", "Design", "Company"];
  }

  /** A list whose third entry repeats its first has three distinct entries. */
  lemma RepeatedFirstDropped<T(!new)>(a: T, b: T, c: T)
    requires a != b && a != c && b != c
    ensures Distinct([a, b, a, c]) == [a, b, c]
  {
    DistinctSnoc([], a);
    assert [] + [a] == [a];
    DistinctSnoc([a], b);
    assert [a] + [b] == [a, b];
    DistinctSnoc([a, b], a);
    assert [a, b] + [a] == [a, b, a];
    DistinctSnoc([a, b, a], c);
    assert [a, b, a] + [c] == [a, b, a, c];
    assert [a, b] + [c] == [a, b, c];
  }

  /** The search test: the lowercased query occurs in the lowercased title or snippet. */
  predicate MatchesSearch(p: Post, query: string) {
    Contains(Lower(p.title), Lower(query)) || Contains(Lower(p.snippet), Lower(query))
  }

  /** `filteredPosts`: the posts that match the search and are shown under the active tab. */
  function Filtered(posts: seq<Post>, query: string, active: string): (r: seq<Post>)
    ensures forall p :: p in r <==> p in posts && MatchesSearch(p, query) && Shown(active, p.category)
    ensures Subseq(r, posts)
  {
    var keep := (p: Post) => MatchesSearch(p, query) && Shown(active, p.category);
    FilterIsSubseq(posts, keep);
    assert forall p :: p in Filter(posts, keep) <==> p in posts && keep(p) by {
      forall p ensures p in Filter(posts, keep) <==> p in posts && keep(p) {
        FilterMembership(posts, keep, p);
      }
    }
    Filter(posts, keep)
  }

  /** With an empty search and the "All" tab every post is listed. */
  lemma EmptySearchShowsAll(posts: seq<Post>)
    ensures Filtered(posts, "", AllTab) == posts
  {
    var keep := (p: Post) => MatchesSearch(p, "") && Shown(AllTab, p.category);
    forall i | 0 <= i < |posts| ensures keep(posts[i]) {
      ContainsEmpty(Lower(posts[i].title));
    }
    FilterAll(posts, keep);
  }

  /** With an empty search, a category tab lists exactly that category's posts. */
  lemma EmptySearchByCategory(posts: seq<Post>, active: string, p: Post)
    ensures p in Filtered(posts, "", active) <==> p in posts && Shown(active, p.category)
  {
    ContainsEmpty(Lower(p.title));
  }
}
