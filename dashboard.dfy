/** The dashboard: the user's posts, narrowed by a search term and a status
    filter, with totals over all of them, and the list update after a delete. */
module Dashboard {
  import opened Wrappers
  import opened Strings
  import opened Posts

  /** The status dropdown: every post, or only drafts or only published ones. */
  datatype StatusFilter = AllStatuses | OnlyStatus(status: Status)

  /** The search keeps a post whose title or topic contains the term, ignoring
      case; the status filter keeps a post whose status it names. */
  predicate Keeps(p: BlogPost, term: string, filter: StatusFilter)
  {
    && (Contains(Lower(p.title), Lower(term)) || Contains(Lower(p.topic), Lower(term)))
    && (filter.AllStatuses? || filter.status == p.status)
  }

  /** `filteredPosts`. */
  function Matching(posts: seq<BlogPost>, term: string, filter: StatusFilter): (r: seq<BlogPost>)
    ensures forall p :: p in r <==> p in posts && Keeps(p, term, filter)
    ensures forall p :: multiset(r)[p] == if Keeps(p, term, filter) then multiset(posts)[p] else 0
    ensures IsSubseq(r, posts)
  {
    var keep := (p: BlogPost) => Keeps(p, term, filter);
    FilterIsSubseq(posts, keep);
    FilterCount(posts, keep);
    Filter(posts, keep)
  }

  /** With no search term and no status filter, every post is listed, in order. */
  lemma NoCriteriaKeepsAll(posts: seq<BlogPost>)
    ensures Matching(posts, "", AllStatuses) == posts
  {
    forall i | 0 <= i < |posts| ensures Keeps(posts[i], "", AllStatuses) {
      assert Lower("") == "";
      assert Contains(Lower(posts[i].title), "");
    }
    FilterKeepsAll(posts, (p: BlogPost) => Keeps(p, "", AllStatuses));
  }

  /** `blogPosts.filter(post => post.id !== id)`. */
  function WithoutId(posts: seq<BlogPost>, id: string): (r: seq<BlogPost>)
    ensures forall p :: p in r <==> p in posts && p.id != id
    ensures forall p :: multiset(r)[p] == if p.id != id then multiset(posts)[p] else 0
    ensures IsSubseq(r, posts)
  {
    var keep := (p: BlogPost) => p.id != id;
    FilterIsSubseq(posts, keep);
    FilterCount(posts, keep);
    Filter(posts, keep)
  }

  /** The four figures of the stats cards. */
  datatype DashboardStats = DashboardStats(total: nat, published: nat, drafts: nat, totalWords: int)

  function StatsOf(posts: seq<BlogPost>): (st: DashboardStats)
    ensures st.total == |posts| && st.published + st.drafts == st.total
    ensures st.published == |Filter(posts, IsPublished)| && st.drafts == |Filter(posts, IsDraft)|
    ensures st.totalWords == TotalWords(posts)
  {
    StatusPartition(posts);
    DashboardStats(|posts|, PublishedCount(posts), DraftCount(posts), TotalWords(posts))
  }

  /** What fetching the posts came to. */
  datatype FetchOutcome =
    | NoUser
    | Fetched(data: Option<seq<BlogPost>>, failed: bool)
    | FetchThrew

  /** What the delete request came to. */
  datatype DeleteOutcome = DeleteOk | DeleteFailed | DeleteThrew

  const NoMatchHeading := "No posts found"
  const NoPostsHeading := "No blog posts yet"

  /** The page's state. */
  class EnhancedDashboard {
    var blogPosts: seq<BlogPost>
    var loading: bool
    var searchTerm: string
    var filterStatus: StatusFilter

    /** The initial state: no posts, loading, no search, every status. */
    constructor()
      ensures blogPosts == [] && loading && searchTerm == "" && filterStatus == AllStatuses
    {
      blogPosts := [];
      loading := true;
      searchTerm := "";
      filterStatus := AllStatuses;
    }

    /** The posts shown. */
    function FilteredPosts(): (r: seq<BlogPost>)
      reads this
      ensures forall p :: p in r <==> p in blogPosts && Keeps(p, searchTerm, filterStatus)
      ensures IsSubseq(r, blogPosts)
    {
      Matching(blogPosts, searchTerm, filterStatus)
    }

    /** `stats`, over all posts whatever the search and filter. */
    function Stats(): (st: DashboardStats)
      reads this
      ensures st.total == |blogPosts| && st.published + st.drafts == st.total
      ensures st.totalWords == TotalWords(blogPosts)
    {
      StatsOf(blogPosts)
    }

    /** The heading shown when no post is listed. */
    function EmptyStateHeading(): (h: string)
      reads this
      ensures h == NoMatchHeading <==> searchTerm != "" || filterStatus != AllStatuses
      ensures h == NoPostsHeading <==> searchTerm == "" && filterStatus == AllStatuses
    {
      if searchTerm != "" || filterStatus != AllStatuses then NoMatchHeading else NoPostsHeading
    }

    /** "No blog posts yet" above an empty list means the user has no posts. */
    lemma NoPostsHeadingMeansEmpty()
      requires FilteredPosts() == [] && EmptyStateHeading() == NoPostsHeading
      ensures blogPosts == []
    {
      assert NoMatchHeading[3] != NoPostsHeading[3];
      NoCriteriaKeepsAll(blogPosts);
    }

    /** `fetchBlogPosts` once the requests have come back: the posts are
        replaced only by data that came without an error; loading ends on
        every path. */
    method FetchBlogPosts(outcome: FetchOutcome)
      modifies this
      ensures !loading
      ensures outcome.Fetched? && !outcome.failed && outcome.data.Some? ==> blogPosts == outcome.data.value
      ensures !(outcome.Fetched? && !outcome.failed && outcome.data.Some?) ==> blogPosts == old(blogPosts)
      ensures searchTerm == old(searchTerm) && filterStatus == old(filterStatus)
    {
      if outcome.Fetched? && !outcome.failed && outcome.data.Some? {
        blogPosts := outcome.data.value;
      }
      loading := false;
    }

    /** `handleDelete`: after a confirmed, successful delete exactly the
        posts with that id leave the list and the others keep their order;
        otherwise nothing changes. */
    method HandleDelete(id: string, confirmed: bool, outcome: DeleteOutcome)
      modifies this
      ensures confirmed && outcome == DeleteOk ==> blogPosts == WithoutId(old(blogPosts), id)
      ensures !(confirmed && outcome == DeleteOk) ==> blogPosts == old(blogPosts)
      ensures loading == old(loading) && searchTerm == old(searchTerm)
      ensures filterStatus == old(filterStatus)
    {
      if !confirmed {
        return;
      }
      if outcome == DeleteOk {
        blogPosts := WithoutId(blogPosts, id);
      }
    }

    method SetSearchTerm(term: string)
      modifies this
      ensures searchTerm == term
      ensures blogPosts == old(blogPosts) && loading == old(loading) && filterStatus == old(filterStatus)
    {
      searchTerm := term;
    }

    method SetFilterStatus(filter: StatusFilter)
      modifies this
      ensures filterStatus == filter
      ensures blogPosts == old(blogPosts) && loading == old(loading) && searchTerm == old(searchTerm)
    {
      filterStatus := filter;
    }
  }
}
