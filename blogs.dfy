/** The blog page: the title/author search, the "related articles" beside an open
    post, and the new-post form. */
module Blogs {

  import opened Lists
  import opened Text

  datatype Blog = Blog(id: int, title: string, author: string, description: string, image: string, date: string, content: string)

  /** The search test: the lowercased title or the lowercased author contains the
      lowercased search term. */
  predicate Matches(b: Blog, term: string) {
    Contains(Lower(b.title), Lower(term)) || Contains(Lower(b.author), Lower(term))
  }

  /** `filteredBlogs`. */
  function FilteredBlogs(blogs: seq<Blog>, term: string): (r: seq<Blog>)
    ensures IsSubseq(r, blogs)
    ensures forall b :: b in r <==> b in blogs && Matches(b, term)
    ensures forall b :: multiset(r)[b] == if Matches(b, term) then multiset(blogs)[b] else 0
    ensures term == "" ==> r == blogs
  {
    EmptyTermMatches(blogs, term);
    FilterCounts(blogs, (b: Blog) => Matches(b, term));
    Filter(blogs, (b: Blog) => Matches(b, term))
  }

  lemma EmptyTermMatches(xs: seq<Blog>, term: string)
    ensures term == "" ==> forall i :: 0 <= i < |xs| ==> Matches(xs[i], term)
  {
    if term == "" {
      forall i | 0 <= i < |xs| ensures Matches(xs[i], term) {
        ContainsEmpty(Lower(xs[i].title));
      }
    }
  }

  /** The search does not depend on the letter case of the term. */
  lemma SearchIgnoresCase(blogs: seq<Blog>, term: string)
    ensures FilteredBlogs(blogs, Lower(term)) == FilteredBlogs(blogs, term)
  {
    LowerIdempotent(term);
    FilterAgrees(blogs, (b: Blog) => Matches(b, Lower(term)), (b: Blog) => Matches(b, term));
  }

  /** A blog is found by any part of its title, in any letter case. */
  lemma FoundByTitlePart(blogs: seq<Blog>, i: nat, a: string, part: string, c: string)
    requires i < |blogs|
    requires Lower(blogs[i].title) == a + Lower(part) + c
    ensures blogs[i] in FilteredBlogs(blogs, part)
  {
    ContainsInfix(a, Lower(part), c);
  }

  /** `getRelatedBlogs(current)`: the other blogs, at most three, in catalogue order. */
  function RelatedBlogs(blogs: seq<Blog>, current: Blog): (r: seq<Blog>)
    ensures |r| <= 3
    ensures forall b :: b in r ==> b.id != current.id && b in blogs
    ensures IsSubseq(r, blogs)
    ensures var others := Filter(blogs, (b: Blog) => b.id != current.id);
      |r| == (if |others| < 3 then |others| else 3) && r == others[..|r|]
  {
    var others := Filter(blogs, (b: Blog) => b.id != current.id);
    var r := Take(others, 3);
    assert forall b :: b in r ==> b in others;
    assert IsSubseq(r, others[..|r|]) by {
      SubseqOfSelf(r);
    }
    SubseqOfPrefix(r, others, |r|);
    SubseqTransitive(r, others, blogs);
    r
  }

  /** What the form holds: `newBlog`. */
  datatype Draft = Draft(title: string, description: string, image: string)

  datatype Toast = Toast(title: string, description: string)

  /** The new-post dialog's state and the notices it has raised. */
  class Editor {
    var newBlog: Draft
    var toasts: seq<Toast>

    constructor ()
      ensures newBlog == Draft("", "", "") && toasts == []
    {
      newBlog := Draft("", "", "");
      toasts := [];
    }

    /** Typing into the form. */
    method Edit(d: Draft)
      modifies this
      ensures newBlog == d && toasts == old(toasts)
    {
      newBlog := d;
    }

    /** `handleCreateBlog`: a missing title or description is refused with an error
        notice and the form kept; otherwise a success notice and the form is cleared.
        The image is optional, and the post itself is not stored anywhere. */
    method CreateBlog() returns (created: bool)
      modifies this
      ensures created <==> old(newBlog).title != "" && old(newBlog).description != ""
      ensures !created ==>
        newBlog == old(newBlog) && toasts == old(toasts) + [Toast("Error", "Please fill in all required fields")]
      ensures created ==>
        newBlog == Draft("", "", "") && toasts == old(toasts) + [Toast("Success", "Blog post created successfully!")]
    {
      if newBlog.title == "" || newBlog.description == "" {
        toasts := toasts + [Toast("Error", "Please fill in all required fields")];
        return false;
      }
      toasts := toasts + [Toast("Success", "Blog post created successfully!")];
      newBlog := Draft("", "", "");
      return true;
    }
  }
}
