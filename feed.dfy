/** The feed: the list of post cards and the like toggle on each. */
module Feed {
  import opened Optional
  import opened Types

  /** `post.isLiked`, where an absent flag reads as not liked. */
  predicate Liked(p: Post)
  {
    p.isLiked == Some(true)
  }

  /** One post after a like click: the flag flips and the count moves with it. */
  function LikePost(p: Post): (q: Post)
    ensures Liked(q) == !Liked(p) && q.isLiked.Some?
    ensures q.likes == if Liked(p) then p.likes - 1 else p.likes + 1
    ensures q == p.(isLiked := q.isLiked, likes := q.likes)
  {
    p.(isLiked := Some(!Liked(p)), likes := if Liked(p) then p.likes - 1 else p.likes + 1)
  }

  lemma LikePostTwice(p: Post)
    requires p.isLiked.Some?
    ensures LikePost(LikePost(p)) == p
  {
    if p.isLiked.value {
      assert Liked(p);
    } else {
      assert !Liked(p);
    }
    assert p.isLiked == Some(Liked(p));
  }

  /** `handleLike`: every post with the id is toggled; the others and the order are kept. */
  function Like(posts: seq<Post>, id: string): (r: seq<Post>)
    ensures |r| == |posts|
    ensures forall i :: 0 <= i < |posts| ==> r[i] == if posts[i].id == id then LikePost(posts[i]) else posts[i]
  {
    seq(|posts|, i requires 0 <= i < |posts| => if posts[i].id == id then LikePost(posts[i]) else posts[i])
  }

  /**
   * Liking twice gives back the count and whether the post is liked; the post itself comes
   * back unchanged whenever its flag was present (an absent flag comes back as `false`).
   */
  lemma LikeTwice(posts: seq<Post>, id: string)
    ensures forall i :: 0 <= i < |posts| ==>
              Like(Like(posts, id), id)[i].likes == posts[i].likes &&
              Liked(Like(Like(posts, id), id)[i]) == Liked(posts[i])
    ensures (forall i :: 0 <= i < |posts| ==> posts[i].isLiked.Some?) ==> Like(Like(posts, id), id) == posts
  {
    var twice := Like(Like(posts, id), id);
    if forall i :: 0 <= i < |posts| ==> posts[i].isLiked.Some? {
      forall i | 0 <= i < |posts|
        ensures twice[i] == posts[i]
      {
        var once := Like(posts, id);
        if posts[i].id == id {
          assert once[i] == LikePost(posts[i]) && once[i].id == id;
          assert twice[i] == LikePost(once[i]);
          LikePostTwice(posts[i]);
        } else {
          assert once[i] == posts[i] && twice[i] == once[i];
        }
      }
    }
  }

  class FeedView {
    var posts: seq<Post>

    constructor (mock: seq<Post>)
      ensures posts == mock
    {
      posts := mock;
    }

    method HandleLike(id: string)
      modifies this`posts
      ensures posts == Like(old(posts), id)
    {
      posts := Like(posts, id);
    }

    /** The mount-time fetch replaces the list only when it returns posts. */
    method ReceiveFetched(fetched: seq<Post>)
      modifies this`posts
      ensures posts == if |fetched| > 0 then fetched else old(posts)
    {
      if |fetched| > 0 {
        posts := fetched;
      }
    }
  }
}
