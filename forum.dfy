/** The discussion feed of src/tasks/0000/test.jsx: posts with votes, bookmarks and
  * comments, a sort by three keys, a new-post dialog and a case-insensitive search.
  * `createdAt` is a timestamp in milliseconds (the ISO strings compare as their dates). */
module Forum {
  import opened Seqs
  import opened Text
  import opened Sorting
  import opened Numerals

  datatype Comment = Comment(username: string, text: string)

  /** One post; `title` is the source's `post` field and `description` its `postDescription`. */
  datatype Post = Post(postId: string, username: string, name: string, title: string, description: string,
                       upvotes: int, downvotes: int, tags: seq<string>, createdAt: int,
                       comments: seq<Comment>, isBookmarked: bool)

  /** The net count a post card starts from: `upvotes - downvotes`. */
  function Net(p: Post): int {
    p.upvotes - p.downvotes
  }

  // ---------------------------------------------------------------- per-post updates

  /** `handleVote` as written: the matching post's `upvotes` becomes the card's net count,
    * `downvotes` is kept. */
  function WithVoteAsWritten(posts: seq<Post>, id: string, newVotes: int): (r: seq<Post>)
    ensures |r| == |posts|
    ensures forall k :: 0 <= k < |posts| ==> r[k].postId == posts[k].postId
    ensures forall k :: 0 <= k < |posts| && posts[k].postId != id ==> r[k] == posts[k]
    ensures forall k :: 0 <= k < |posts| && posts[k].postId == id ==>
      r[k] == posts[k].(upvotes := newVotes)
  {
    seq(|posts|, k requires 0 <= k < |posts| =>
      if posts[k].postId == id then posts[k].(upvotes := newVotes) else posts[k])
  }

  /** With down-votes on record, storing the card's count as `upvotes` leaves a net count
    * that differs from what the card shows: the first post of the initial data (245 up,
    * 12 down) shows 234 after an up-vote, but its stored net count falls to 222. */
  lemma VoteAsWrittenLosesDownvotes()
    ensures var p := Post("post1", "", "", "", "", 245, 12, [], 0, [], false);
      var shown := Net(p) + 1;
      shown == 234 && Net(WithVoteAsWritten([p], "post1", shown)[0]) == 222
  {
  }

  /** The evident intent: the stored net count becomes the card's count. */
  function WithVote(posts: seq<Post>, id: string, newVotes: int): (r: seq<Post>)
    ensures |r| == |posts|
    ensures forall k :: 0 <= k < |posts| ==> r[k].postId == posts[k].postId
    ensures forall k :: 0 <= k < |posts| && posts[k].postId != id ==> r[k] == posts[k]
    ensures forall k :: 0 <= k < |posts| && posts[k].postId == id ==>
      Net(r[k]) == newVotes && r[k].downvotes == posts[k].downvotes &&
      r[k].(upvotes := posts[k].upvotes) == posts[k]
  {
    seq(|posts|, k requires 0 <= k < |posts| =>
      if posts[k].postId == id then posts[k].(upvotes := newVotes + posts[k].downvotes) else posts[k])
  }

  /** `handleBookmark`: only the matching post's flag is set. */
  function WithBookmark(posts: seq<Post>, id: string, b: bool): (r: seq<Post>)
    ensures |r| == |posts|
    ensures forall k :: 0 <= k < |posts| ==> r[k].postId == posts[k].postId
    ensures forall k :: 0 <= k < |posts| && posts[k].postId != id ==> r[k] == posts[k]
    ensures forall k :: 0 <= k < |posts| && posts[k].postId == id ==>
      r[k].isBookmarked == b && r[k].(isBookmarked := posts[k].isBookmarked) == posts[k]
  {
    seq(|posts|, k requires 0 <= k < |posts| =>
      if posts[k].postId == id then posts[k].(isBookmarked := b) else posts[k])
  }

  /** `handleComment`: one comment by `username` at the end of the matching post's comments. */
  function WithComment(posts: seq<Post>, id: string, username: string, text: string): (r: seq<Post>)
    ensures |r| == |posts|
    ensures forall k :: 0 <= k < |posts| ==> r[k].postId == posts[k].postId
    ensures forall k :: 0 <= k < |posts| && posts[k].postId != id ==> r[k] == posts[k]
    ensures forall k :: 0 <= k < |posts| && posts[k].postId == id ==>
      r[k].comments == posts[k].comments + [Comment(username, text)] &&
      r[k].(comments := posts[k].comments) == posts[k]
  {
    seq(|posts|, k requires 0 <= k < |posts| =>
      if posts[k].postId == id then posts[k].(comments := posts[k].comments + [Comment(username, text)]) else posts[k])
  }

  function CommentCount(p: Post): int {
    |p.comments|
  }

  /** With distinct ids, a comment on a listed post adds exactly one comment to the feed. */
  lemma AddCommentAddsOne(posts: seq<Post>, id: string, username: string, text: string, k: nat)
    requires InjectiveOn(posts, PostIdOf) && k < |posts| && posts[k].postId == id
    ensures SumOf(WithComment(posts, id, username, text), CommentCount) == SumOf(posts, CommentCount) + 1
  {
    var r := WithComment(posts, id, username, text);
    assert r == posts[k := r[k]];
    SumOfUpdate(posts, k, r[k], CommentCount);
  }

  function PostIdOf(p: Post): string {
    p.postId
  }

  // ---------------------------------------------------------------- the post card

  /** `Post.handleVote`: one up or down from the card's current count. */
  function NextVotes(votes: int, up: bool): (v: int)
    ensures up ==> v > votes
    ensures !up ==> v < votes
  {
    if up then votes + 1 else votes - 1
  }

  /** An up-vote and a down-vote cancel out, in either order. */
  lemma VotesCancel(votes: int)
    ensures NextVotes(NextVotes(votes, true), false) == votes
    ensures NextVotes(NextVotes(votes, false), true) == votes
  {
  }

  /** `Post.handleAddComment`'s guard: the text, trimmed, is not empty. */
  predicate Submittable(text: string) {
    Trim(text) != ""
  }

  /** Text made only of spaces is never submitted. */
  lemma BlankNotSubmittable(text: string)
    requires forall k :: 0 <= k < |text| ==> IsSpace(text[k])
    ensures !Submittable(text)
  {
  }

  // ---------------------------------------------------------------- sorting

  datatype SortType = Latest | MostVoted | MostCommented

  /** The comparator's key, negated so that the ascending sort lists the largest first. */
  function SortKey(t: SortType): Post -> int {
    match t
    case Latest => (p: Post) => -p.createdAt
    case MostVoted => (p: Post) => -Net(p)
    case MostCommented => (p: Post) => -|p.comments|
  }

  /** `handleSort`: a stable sort, newest first, most voted first, or most commented first. */
  function Sorted(posts: seq<Post>, t: SortType): (r: seq<Post>)
    ensures |r| == |posts| && multiset(r) == multiset(posts)
    ensures t == Latest ==> forall i, j :: 0 <= i < j < |r| ==> r[i].createdAt >= r[j].createdAt
    ensures t == MostVoted ==> forall i, j :: 0 <= i < j < |r| ==> Net(r[i]) >= Net(r[j])
    ensures t == MostCommented ==> forall i, j :: 0 <= i < j < |r| ==> |r[i].comments| >= |r[j].comments|
  {
    var r := SortBy(posts, SortKey(t));
    assert forall i, j :: 0 <= i < j < |r| ==> SortKey(t)(r[i]) <= SortKey(t)(r[j]);
    r
  }

  /** Posts that tie on the sort key keep their feed order. */
  lemma SortedStable(posts: seq<Post>, t: SortType, v: int)
    ensures Filter(Sorted(posts, t), KeyIs(SortKey(t), v)) == Filter(posts, KeyIs(SortKey(t), v))
  {
    SortStable(posts, SortKey(t), v);
  }

  /** Sorting an already sorted feed again changes nothing. */
  lemma SortTwice(posts: seq<Post>, t: SortType)
    ensures Sorted(Sorted(posts, t), t) == Sorted(posts, t)
  {
    SortSortedIsIdentity(SortBy(posts, SortKey(t)), SortKey(t));
  }

  // ---------------------------------------------------------------- new posts

  /** `post${n}`. */
  function PostId(n: nat): string {
    "post" + Decimal(n)
  }

  lemma PostIdInjective(a: nat, b: nat)
    requires PostId(a) == PostId(b)
    ensures a == b
  {
    assert Decimal(a) == PostId(a)[4..];
    assert Decimal(b) == PostId(b)[4..];
    DecimalInjective(a, b);
  }

  /** The feed's ids are distinct and numbered `post1` to `post<n>`, as in the initial data. */
  ghost predicate Numbered(posts: seq<Post>) {
    InjectiveOn(posts, PostIdOf)
    && forall k :: 0 <= k < |posts| ==> NumberedUpTo(posts[k], |posts|)
  }

  /** The post's id is `post<i>` for some `i` from 1 to `n`. */
  ghost predicate NumberedUpTo(p: Post, n: nat) {
    exists i :: 1 <= i <= n && p.postId == PostId(i)
  }

  /** What `handleNewPost` adds: the user's post, with no votes, comments or bookmark. */
  function NewPost(n: nat, user: string, name: string, title: string, content: string, tags: seq<string>,
                   now: int): Post {
    Post(PostId(n + 1), user, name, title, content, 0, 0, tags, now, [], false)
  }

  /** `handleNewPost`: the new post first, followed by the old feed unchanged; its id is new. */
  function Prepend(posts: seq<Post>, user: string, name: string, title: string, content: string,
                   tags: seq<string>, now: int): (r: seq<Post>)
    ensures |r| == |posts| + 1 && r[1..] == posts
    ensures r[0].postId == PostId(|posts| + 1) && Net(r[0]) == 0 && r[0].comments == [] && !r[0].isBookmarked
    ensures Numbered(posts) ==> Numbered(r)
  {
    var p := NewPost(|posts|, user, name, title, content, tags, now);
    var r := [p] + posts;
    assert r[1..] == posts;
    assert Numbered(posts) ==> Numbered(r) by {
      if Numbered(posts) {
        PrependNumbered(posts, p);
      }
    }
    r
  }

  lemma PrependNumbered(posts: seq<Post>, p: Post)
    requires Numbered(posts) && p.postId == PostId(|posts| + 1)
    ensures Numbered([p] + posts)
  {
    var r := [p] + posts;
    forall k | 0 <= k < |posts| ensures posts[k].postId != p.postId {
      var i :| 1 <= i <= |posts| && posts[k].postId == PostId(i);
      if posts[k].postId == p.postId {
        PostIdInjective(i, |posts| + 1);
      }
    }
    forall i, j | 0 <= i < |r| && 0 <= j < |r| && PostIdOf(r[i]) == PostIdOf(r[j]) ensures i == j {
      if i > 0 && j > 0 {
        assert PostIdOf(posts[i - 1]) == PostIdOf(posts[j - 1]);
      }
    }
    forall k | 0 <= k < |r| ensures NumberedUpTo(r[k], |r|) {
      if k == 0 {
        assert r[0].postId == PostId(|r|);
      } else {
        var i :| 1 <= i <= |posts| && posts[k - 1].postId == PostId(i);
        assert r[k].postId == PostId(i);
      }
    }
  }

  /** The dialog's tags: the field split at commas, each piece trimmed. */
  function Tags(field: string): (r: seq<string>)
    ensures |r| == |Split(field, ',')|
    ensures forall k :: 0 <= k < |r| ==> ',' !in r[k] && r[k] == Trim(Split(field, ',')[k])
  {
    var parts := Split(field, ',');
    seq(|parts|, k requires 0 <= k < |parts| => Trim(parts[k]))
  }

  /** A comma-separated list without spaces comes back as its pieces; an empty field gives
    * one empty tag. */
  lemma TagsOfJoined(pieces: seq<string>)
    requires |pieces| >= 1
    requires forall k :: 0 <= k < |pieces| ==> ',' !in pieces[k] && forall m :: 0 <= m < |pieces[k]| ==> !IsSpace(pieces[k][m])
    ensures Tags(Join(pieces, ',')) == pieces
    ensures Tags("") == [""]
  {
    SplitJoin(pieces, ',');
    forall k | 0 <= k < |pieces| ensures Trim(pieces[k]) == pieces[k] {
      TrimNoSpace(pieces[k]);
    }
  }

  lemma TrimNoSpace(s: string)
    requires forall m :: 0 <= m < |s| ==> !IsSpace(s[m])
    ensures Trim(s) == s
  {
    if s != [] {
      assert !IsSpace(s[0]) && !IsSpace(s[|s| - 1]);
      assert TrimStart(s) == s;
      assert TrimEnd(s) == s;
    }
  }

  /** `NewPostDialog.handleSubmit`'s guard: title and content are both filled in. */
  predicate CanSubmit(title: string, content: string) {
    title != "" && content != ""
  }

  // ---------------------------------------------------------------- search

  /** `filteredPosts`' test: the lower-cased term occurs in the lower-cased title,
    * description or some tag. */
  predicate Matches(p: Post, term: string): (b: bool)
    ensures term == "" ==> b
  {
    ContainsEmpty(Lower(p.title));
    Contains(Lower(p.title), Lower(term)) || Contains(Lower(p.description), Lower(term))
    || exists k :: 0 <= k < |p.tags| && Contains(Lower(p.tags[k]), Lower(term))
  }

  function Search(posts: seq<Post>, term: string): (r: seq<Post>)
    ensures forall k :: 0 <= k < |r| ==> r[k] in posts && Matches(r[k], term)
    ensures forall k :: 0 <= k < |posts| && Matches(posts[k], term) ==> posts[k] in r
  {
    Filter(posts, (p: Post) => Matches(p, term))
  }

  /** An empty search shows the whole feed, in order. */
  lemma EmptySearchShowsAll(posts: seq<Post>)
    ensures Search(posts, "") == posts
  {
    FilterKeepsAll(posts, (p: Post) => Matches(p, ""));
  }

  /** The search ignores the case of the term. */
  lemma SearchIgnoresCase(p: Post, term: string)
    ensures Matches(p, term) <==> Matches(p, Lower(term))
  {
    LowerIdempotent(term);
  }

  // ---------------------------------------------------------------- the feed

  class Feed {
    var posts: seq<Post>
    var searchTerm: string
    const user: string
    const userName: string

    ghost predicate Valid()
      reads this
    {
      Numbered(posts)
    }

    /** `initialForumData`: the posts are given, numbered `post1` onwards. */
    constructor(initial: seq<Post>, user: string, userName: string)
      requires Numbered(initial)
      ensures Valid()
      ensures posts == initial && searchTerm == "" && this.user == user && this.userName == userName
    {
      posts := initial;
      searchTerm := "";
      this.user := user;
      this.userName := userName;
    }

    /** `handleVote`, with the stored net count kept equal to the card's. */
    method Vote(id: string, newVotes: int)
      requires Valid()
      modifies this`posts
      ensures Valid()
      ensures posts == WithVote(old(posts), id, newVotes)
    {
      posts := WithVote(posts, id, newVotes);
      KeepsNumbering(old(posts), posts);
    }

    method Bookmark(id: string, b: bool)
      requires Valid()
      modifies this`posts
      ensures Valid()
      ensures posts == WithBookmark(old(posts), id, b)
    {
      posts := WithBookmark(posts, id, b);
      KeepsNumbering(old(posts), posts);
    }

    method Comment(id: string, text: string)
      requires Valid()
      modifies this`posts
      ensures Valid()
      ensures posts == WithComment(old(posts), id, user, text)
    {
      posts := WithComment(posts, id, user, text);
      KeepsNumbering(old(posts), posts);
    }

    method Sort(t: SortType)
      requires Valid()
      modifies this`posts
      ensures Valid()
      ensures posts == Sorted(old(posts), t)
    {
      var sorted := Sorted(posts, t);
      SortKeepsNumbering(posts, t);
      posts := sorted;
    }

    /** `handleNewPost`, reached only through the dialog's guard. */
    method NewPost(title: string, content: string, tagsField: string, now: int)
      requires Valid()
      modifies this`posts
      ensures Valid()
      ensures CanSubmit(title, content) ==>
        posts == Prepend(old(posts), user, userName, title, content, Tags(tagsField), now)
      ensures !CanSubmit(title, content) ==> posts == old(posts)
    {
      if CanSubmit(title, content) {
        posts := Prepend(posts, user, userName, title, content, Tags(tagsField), now);
      }
    }

    method SetSearch(term: string)
      modifies this`searchTerm
      ensures searchTerm == term
    {
      searchTerm := term;
    }

    /** The list on screen. */
    function Visible(): (r: seq<Post>)
      reads this
      ensures |r| <= |posts|
      ensures searchTerm == "" ==> r == posts
    {
      EmptySearchShowsAll(posts);
      Search(posts, searchTerm)
    }
  }

  /** Updates that keep every id at its index keep the numbering. */
  lemma KeepsNumbering(before: seq<Post>, after: seq<Post>)
    requires Numbered(before) && |after| == |before|
    requires forall k :: 0 <= k < |before| ==> after[k].postId == before[k].postId
    ensures Numbered(after)
  {
    forall i, j | 0 <= i < |after| && 0 <= j < |after| && PostIdOf(after[i]) == PostIdOf(after[j]) ensures i == j {
      assert PostIdOf(before[i]) == PostIdOf(before[j]);
    }
    forall k | 0 <= k < |after| ensures NumberedUpTo(after[k], |after|) {
      var i :| 1 <= i <= |before| && before[k].postId == PostId(i);
      assert after[k].postId == PostId(i);
    }
  }

  lemma SortKeepsNumbering(posts: seq<Post>, t: SortType)
    requires Numbered(posts)
    ensures Numbered(Sorted(posts, t))
  {
    var r := Sorted(posts, t);
    SortInjective(posts, SortKey(t), PostIdOf);
    forall k | 0 <= k < |r| ensures NumberedUpTo(r[k], |r|) {
      assert r[k] in multiset(posts);
      var m :| 0 <= m < |posts| && posts[m] == r[k];
      var i :| 1 <= i <= |posts| && posts[m].postId == PostId(i);
    }
  }

  /** The card of one post: its own count, bookmark flag and comment draft. */
  class PostCard {
    const postId: string
    var votes: int
    var isBookmarked: bool
    var newComment: string

    /** The card starts from the post's net count and flag. */
    constructor(p: Post)
      ensures postId == p.postId && votes == Net(p) && isBookmarked == p.isBookmarked && newComment == ""
    {
      postId := p.postId;
      votes := Net(p);
      isBookmarked := p.isBookmarked;
      newComment := "";
    }

    /** `handleVote`: the card's count moves by one and the feed stores it. */
    method Vote(up: bool, feed: Feed)
      requires feed.Valid()
      modifies this`votes, feed`posts
      ensures feed.Valid()
      ensures votes == NextVotes(old(votes), up)
      ensures feed.posts == WithVote(old(feed.posts), postId, votes)
    {
      votes := NextVotes(votes, up);
      feed.Vote(postId, votes);
    }

    /** `handleBookmark`: the card's flag flips and the feed stores the flipped value. */
    method Bookmark(feed: Feed)
      requires feed.Valid()
      modifies this`isBookmarked, feed`posts
      ensures feed.Valid()
      ensures isBookmarked == !old(isBookmarked)
      ensures feed.posts == WithBookmark(old(feed.posts), postId, isBookmarked)
    {
      isBookmarked := !isBookmarked;
      feed.Bookmark(postId, isBookmarked);
    }

    /** `handleAddComment`: a draft that is not blank goes to the feed as typed, and the draft empties. */
    method AddComment(feed: Feed)
      requires feed.Valid()
      modifies this`newComment, feed`posts
      ensures feed.Valid()
      ensures Submittable(old(newComment)) ==>
        feed.posts == WithComment(old(feed.posts), postId, feed.user, old(newComment)) && newComment == ""
      ensures !Submittable(old(newComment)) ==> feed.posts == old(feed.posts) && newComment == old(newComment)
    {
      if Submittable(newComment) {
        feed.Comment(postId, newComment);
        newComment := "";
      }
    }
  }
}
