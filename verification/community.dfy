/**
 * The community page: seeded posts, a category filter, a per-post vote
 * that toggles between none, up and down, the score shown beside each
 * post, and new posts from the create-post dialog. Votes and posts each
 * award XP under an activity string that no ledger counter recognises.
 */
module Community {
  import opened Wrappers
  import opened Storage
  import opened Seqs
  import opened PostModal
  import Gamification

  datatype Direction = Up | Down

  /**
   * `votedPosts`: a post id mapped to its vote. Clearing a vote keeps the
   * key with an undefined value, modelled as `None`.
   */
  type Votes = map<int, Option<Direction>>

  const VoteXP := 5
  const PostXP := 10
  const VoteActivity := "Voted on community post"
  const PostActivity := "Created a community post"

  /** The five posts the page starts with. */
  const SeedPosts := [
    Post(1, "Effective breathing " + "exercises for exam stress?",
         "My finals are next week " + "and I'm having panic " + "attacks during study " + "sessions. Can anyone share " + "breathing techniques that " + "actually work?",
         "AnxiousStudent23", "stress", "1 hour ago", 34, 2, 12, true, ["breathing", "anxiety", "finals"]),
    Post(2, "Best study schedule for " + "multiple exams",
         "I have 5 exams in 2 weeks. " + "How do you create a " + "realistic study schedule " + "that doesn't burn you out? " + "Looking for practical " + "tips.",
         "StudyPlanMaster", "exams", "3 hours ago", 28, 1, 9, true, ["schedule", "planning", "exams"]),
    Post(3, "Free tutoring resources " + "for calculus?",
         "Struggling with " + "derivatives and integrals. " + "Any recommendations for " + "free online tutoring or " + "practice sites that " + "actually help?",
         "MathStruggler", "academic", "6 hours ago", 19, 3, 15, false, ["calculus", "tutoring", "math-help"]),
    Post(4, "10-minute meditation " + "changed my life",
         "Started doing 10 minutes " + "of meditation daily and my " + "stress levels have dropped " + "significantly. Here's my " + "routine and apps I use...",
         "ZenStudent", "relaxation", "1 day ago", 76, 4, 31, true, ["meditation", "routine", "stress-relief"]),
    Post(5, "Small wins matter - " + "celebrating progress",
         "Completed all my " + "assignments this week and " + "even had time for " + "self-care. Remember to " + "celebrate the small " + "victories!",
         "ProgressTracker", "stress", "2 days ago", 52, 1, 24, true, ["progress", "self-care", "motivation"])
  ]

  /** The vote recorded for a post; a missing key reads as no vote. */
  function VoteOf(votes: Votes, id: int): Option<Direction> {
    if id in votes then votes[id] else None
  }

  /**
   * `handleVote`'s new map: voting the direction already recorded clears
   * it, any other vote records that direction; no other post's vote moves.
   */
  function NextVotes(votes: Votes, id: int, d: Direction): (r: Votes)
    ensures VoteOf(r, id) == (if VoteOf(votes, id) == Some(d) then None else Some(d))
    ensures forall k :: k != id ==> VoteOf(r, k) == VoteOf(votes, k)
  {
    votes[id := if VoteOf(votes, id) == Some(d) then None else Some(d)]
  }

  function Opposite(d: Direction): Direction {
    if d == Up then Down else Up
  }

  /**
   * Voting the same direction twice gives the post its vote back, except
   * when it started with the opposite vote, which the pair clears.
   */
  lemma VoteTwice(votes: Votes, id: int, d: Direction)
    ensures var twice := NextVotes(NextVotes(votes, id, d), id, d);
      && (VoteOf(twice, id) == VoteOf(votes, id) <==> VoteOf(votes, id) != Some(Opposite(d)))
      && (VoteOf(votes, id) == Some(Opposite(d)) ==> VoteOf(twice, id) == None)
  {
    var once := NextVotes(votes, id, d);
    match VoteOf(votes, id)
    case None =>
      assert VoteOf(once, id) == Some(d);
    case Some(e) =>
      if e == d {
        assert VoteOf(once, id) == None;
      } else {
        assert e == Opposite(d);
        assert VoteOf(once, id) == Some(d);
      }
  }

  /** +1 for up, -1 for down. */
  function Weight(v: Option<Direction>): int {
    match v
    case None => 0
    case Some(Up) => 1
    case Some(Down) => -1
  }

  /** The score shown beside a post: its counters' difference moved by the viewer's own vote. */
  function DisplayedScore(p: Post, votes: Votes): (r: int)
    ensures p.upvotes - p.downvotes - 1 <= r <= p.upvotes - p.downvotes + 1
    ensures r == p.upvotes - p.downvotes <==> VoteOf(votes, p.id) == None
    ensures VoteOf(votes, p.id) == Some(Up) ==> r == p.upvotes - p.downvotes + 1
    ensures VoteOf(votes, p.id) == Some(Down) ==> r == p.upvotes - p.downvotes - 1
  {
    p.upvotes - p.downvotes + Weight(VoteOf(votes, p.id))
  }

  /**
   * A vote moves the post's shown score by the change of the viewer's own
   * vote weight (so by -1, +1 or 2 in the voted direction), and leaves
   * every other post's score alone.
   */
  lemma VoteMovesScore(p: Post, votes: Votes, id: int, d: Direction)
    ensures id == p.id ==>
      DisplayedScore(p, NextVotes(votes, id, d)) - DisplayedScore(p, votes)
        == Weight(VoteOf(NextVotes(votes, id, d), id)) - Weight(VoteOf(votes, id))
    ensures id != p.id ==> DisplayedScore(p, NextVotes(votes, id, d)) == DisplayedScore(p, votes)
  {
  }

  predicate InCategory(category: string, p: Post) {
    p.category == category
  }

  /** `filteredPosts`: every post for "all"; otherwise exactly the posts of the category, in order. */
  function FilteredPosts(posts: seq<Post>, category: string): (r: seq<Post>)
    ensures category == "all" ==> r == posts
    ensures IsSubsequence(r, posts)
    ensures category != "all" ==> forall p :: p in r <==> p in posts && p.category == category
    ensures category != "all" ==> forall p :: multiset(r)[p] == if p.category == category then multiset(posts)[p] else 0
  {
    if category == "all" then
      SubsequenceOfSelf(posts);
      posts
    else
      var keep := (p: Post) => InCategory(category, p);
      FilterIsSubsequence(posts, keep);
      forall p ensures p in Filter(posts, keep) <==> p in posts && p.category == category {
        FilterMembership(posts, keep, p);
      }
      forall p ensures multiset(Filter(posts, keep))[p] == if p.category == category then multiset(posts)[p] else 0 {
        FilterMultiplicity(posts, keep, p);
      }
      Filter(posts, keep)
  }

  /** The community page. */
  class CommunityPage {
    var selectedCategory: string
    var votedPosts: Votes
    var posts: seq<Post>
    var isCreatePostOpen: bool
    const ledger: Gamification.Ledger

    constructor(ledger: Gamification.Ledger)
      ensures this.ledger == ledger
      ensures selectedCategory == "all" && votedPosts == map[] && posts == SeedPosts && !isCreatePostOpen
    {
      this.ledger := ledger;
      selectedCategory := "all";
      votedPosts := map[];
      posts := SeedPosts;
      isCreatePostOpen := false;
    }

    /**
     * `handleVote`: toggles the viewer's vote on one post and awards 5 XP,
     * even when the vote is cleared; no ledger counter moves.
     */
    method HandleVote(postId: int, d: Direction, today: string)
      modifies this`votedPosts, ledger, ledger.storage
      ensures votedPosts == NextVotes(old(votedPosts), postId, d)
      ensures ledger.stats == Gamification.NextStats(old(ledger.stats), VoteXP, VoteActivity, Gamification.CurrentStreak(old(ledger.storage.items)))
      ensures ledger.badges == Gamification.UpdatedBadges(old(ledger.badges), ledger.stats, Has(old(ledger.storage.items), MoodKey(today)))
      ensures ledger.storage.items ==
        old(ledger.storage.items)[Gamification.StatsKey := Stats(ledger.stats)][Gamification.BadgesKey := Badges(ledger.badges)]
      ensures ledger.stats.xp == old(ledger.stats.xp) + VoteXP
      ensures ledger.stats.journalEntries == old(ledger.stats.journalEntries)
      ensures ledger.stats.academicTasks == old(ledger.stats.academicTasks)
      ensures ledger.stats.communityPosts == old(ledger.stats.communityPosts)
      ensures ledger.stats.totalActiveDays == old(ledger.stats.totalActiveDays)
      ensures Gamification.Latched(old(ledger.badges), ledger.badges)
    {
      votedPosts := NextVotes(votedPosts, postId, d);
      var _, _ := ledger.AddXP(VoteXP, VoteActivity, today);
    }

    /**
     * `handleCreatePost`: the new post goes first and the others follow in
     * order; 10 XP is awarded, but under a string no counter matches, so
     * `communityPosts` stays where it was.
     */
    method HandleCreatePost(post: Post, today: string)
      modifies this`posts, ledger, ledger.storage
      ensures posts == [post] + old(posts)
      ensures ledger.stats == Gamification.NextStats(old(ledger.stats), PostXP, PostActivity, Gamification.CurrentStreak(old(ledger.storage.items)))
      ensures ledger.badges == Gamification.UpdatedBadges(old(ledger.badges), ledger.stats, Has(old(ledger.storage.items), MoodKey(today)))
      ensures ledger.storage.items ==
        old(ledger.storage.items)[Gamification.StatsKey := Stats(ledger.stats)][Gamification.BadgesKey := Badges(ledger.badges)]
      ensures ledger.stats.xp == old(ledger.stats.xp) + PostXP
      ensures ledger.stats.journalEntries == old(ledger.stats.journalEntries)
      ensures ledger.stats.academicTasks == old(ledger.stats.academicTasks)
      ensures ledger.stats.communityPosts == old(ledger.stats.communityPosts)
      ensures ledger.stats.totalActiveDays == old(ledger.stats.totalActiveDays)
      ensures Gamification.Latched(old(ledger.badges), ledger.badges)
    {
      posts := [post] + posts;
      var _, _ := ledger.AddXP(PostXP, PostActivity, today);
    }

    /** The posts shown for the selected category. */
    function GetFilteredPosts(): (r: seq<Post>)
      reads this
      ensures IsSubsequence(r, posts)
      ensures selectedCategory == "all" ==> r == posts
    {
      FilteredPosts(posts, selectedCategory)
    }
  }
}
