// The community screen: wellness challenges the user can join, and a wall of
// posts that can be liked and added to. Post ids and the clock are parameters.

module Community {
  import opened Text
  import opened Lists

  datatype Difficulty = Easy | Medium | Hard
  datatype ChallengeCategory = Fitness | Nutrition | Mindfulness | Sleep | Journaling | DigitalWellness

  datatype Challenge = Challenge(
    id: string, title: string, description: string, participants: int, progress: int,
    difficulty: Difficulty, category: ChallengeCategory, reward: string)

  datatype PostCategory = Achievement | Motivation | Question

  /** A wall post; `timestamp` is in milliseconds since the epoch. */
  datatype Post = Post(
    id: string, author: string, avatar: string, content: string, timestamp: int,
    likes: int, comments: int, category: PostCategory, liked: bool)

  const SeedChallenges: seq<Challenge> := [
    Challenge("1", "Mindful Morning", "Meditate for 10 mins daily", 234, 65, Easy, Mindfulness, "+50 Points"),
    Challenge("2", "Hydration Hero", "Drink 8 glasses of water", 189, 78, Easy, Nutrition, "+50 Points"),
    Challenge("5", "8-Hour Sleep", "Get a full night's rest", 112, 50, Easy, Sleep, "+75 Points"),
    Challenge("3", "Step It Up", "Achieve 10,000 steps", 312, 43, Medium, Fitness, "+100 Points"),
    Challenge("6", "Daily Journaling", "Write down your thoughts for 5 mins", 88, 25, Easy, Journaling, "+60 Points"),
    Challenge("7", "Digital Detox", "No screens an hour before bed", 142, 15, Hard, DigitalWellness, "+150 Points")
  ]

  const HourMillis := 60 * 60 * 1000

  /** The two posts the wall starts with, dated two and four hours before `now`. */
  function SeedPosts(now: int): seq<Post> {
    [ Post("1", "Sarah M.", "\U{1F469}\U{200D}\U{1F9B0}",
        "Just hit my 10k steps goal for the third day in a row! Feeling amazing. Thanks for the motivation everyone! \U{1F4AA}",
        now - 2 * HourMillis, 24, 8, Achievement, false),
      Post("2", "David L.", "\U{1F468}\U{200D}\U{1F4BC}",
        "Big shoutout to this community for keeping me accountable on the hydration challenge. It's making a huge difference.",
        now - 4 * HourMillis, 12, 15, Motivation, true) ]
  }

  /** The screen's state: challenges, the ids joined so far, the wall and the post draft. */
  datatype Board = Board(challenges: seq<Challenge>, joined: seq<string>, posts: seq<Post>, draft: string)

  // ---------------------------------------------------------------------------
  // Joining a challenge

  /** Raises `participants` by one on every challenge with the given id. */
  function BumpParticipants(cs: seq<Challenge>, id: string): (r: seq<Challenge>)
    ensures |r| == |cs|
    ensures forall i | 0 <= i < |cs| && cs[i].id != id :: r[i] == cs[i]
    ensures forall i | 0 <= i < |cs| && cs[i].id == id :: r[i] == cs[i].(participants := cs[i].participants + 1)
  {
    if cs == [] then []
    else
      var c := cs[0];
      [if c.id == id then c.(participants := c.participants + 1) else c] + BumpParticipants(cs[1..], id)
  }

  /** `handleJoinChallenge`: an id already joined changes nothing; a new id is
      recorded once and its challenge gains one participant. */
  function Join(b: Board, id: string): (r: Board)
    ensures id in b.joined ==> r == b
    ensures id !in b.joined ==> r.joined == b.joined + [id]
    ensures id !in b.joined ==> r.challenges == BumpParticipants(b.challenges, id)
    ensures r.posts == b.posts && r.draft == b.draft
    ensures id in r.joined
  {
    if id in b.joined then b
    else b.(joined := b.joined + [id], challenges := BumpParticipants(b.challenges, id))
  }

  /** Joining twice is the same as joining once. */
  lemma JoinIdempotent(b: Board, id: string)
    ensures Join(Join(b, id), id) == Join(b, id)
  {
  }

  /** Joining twice raises a challenge's participant count by exactly one in all. */
  lemma JoinTwiceCountsOnce(b: Board, id: string, i: int)
    requires id !in b.joined
    requires 0 <= i < |b.challenges| && b.challenges[i].id == id
    ensures |Join(Join(b, id), id).challenges| == |b.challenges|
    ensures Join(Join(b, id), id).challenges[i].participants == b.challenges[i].participants + 1
  {
  }

  /** The joined list never holds an id twice. */
  lemma JoinKeepsNoDuplicates(b: Board, id: string)
    requires NoDuplicates(b.joined)
    ensures NoDuplicates(Join(b, id).joined)
  {
  }

  // ---------------------------------------------------------------------------
  // Liking a post

  /** A like count never below what the current user's own like accounts for. */
  predicate LikesConsistent(p: Post) {
    p.likes >= (if p.liked then 1 else 0)
  }

  predicate AllLikesConsistent(ps: seq<Post>) {
    forall i | 0 <= i < |ps| :: LikesConsistent(ps[i])
  }

  /** Flips `liked` on every post with the given id, moving `likes` by one in the same direction. */
  function ToggleLikes(ps: seq<Post>, id: string): (r: seq<Post>)
    ensures |r| == |ps|
    ensures forall i | 0 <= i < |ps| && ps[i].id != id :: r[i] == ps[i]
    ensures forall i | 0 <= i < |ps| && ps[i].id == id ::
      && r[i].(liked := ps[i].liked, likes := ps[i].likes) == ps[i]
      && r[i].liked == !ps[i].liked
      && r[i].likes == ps[i].likes + (if ps[i].liked then -1 else 1)
  {
    if ps == [] then []
    else
      var p := ps[0];
      [if p.id == id then p.(liked := !p.liked, likes := if p.liked then p.likes - 1 else p.likes + 1) else p]
        + ToggleLikes(ps[1..], id)
  }

  /** Liking then unliking the same post restores the wall. */
  lemma ToggleLikesTwice(ps: seq<Post>, id: string)
    ensures ToggleLikes(ToggleLikes(ps, id), id) == ps
  {
  }

  /** Like toggling keeps every post's count consistent, so it never goes negative. */
  lemma ToggleLikesKeepsConsistent(ps: seq<Post>, id: string)
    requires AllLikesConsistent(ps)
    ensures AllLikesConsistent(ToggleLikes(ps, id))
    ensures forall i | 0 <= i < |ps| :: ToggleLikes(ps, id)[i].likes >= 0
  {
  }

  lemma SeedPostsConsistent(now: int)
    ensures AllLikesConsistent(SeedPosts(now))
  {
  }

  // ---------------------------------------------------------------------------
  // Posting

  /** The post `handleAddPost` builds from the draft. */
  function NewPost(id: string, content: string, now: int): (p: Post)
    ensures p.likes == 0 && p.comments == 0 && !p.liked && LikesConsistent(p)
    ensures p.id == id && p.content == content && p.timestamp == now
  {
    Post(id, "Alex Johnson", "\U{1F60A}", content, now, 0, 0, Motivation, false)
  }

  /** `handleAddPost`: a draft that trims to "" changes nothing; otherwise the
      untrimmed draft becomes a new post at the front and the draft is cleared. */
  function Publish(b: Board, id: string, now: int): (r: Board)
    ensures IsBlank(b.draft) ==> r == b
    ensures !IsBlank(b.draft) ==>
      && r.posts == [NewPost(id, b.draft, now)] + b.posts
      && r.draft == ""
      && r.challenges == b.challenges && r.joined == b.joined
  {
    TrimEmptyIffBlank(b.draft);
    if Trim(b.draft) == "" then b
    else b.(posts := [NewPost(id, b.draft, now)] + b.posts, draft := "")
  }

  /** Publishing grows the wall by one post at most and keeps every like count consistent. */
  lemma PublishKeepsConsistent(b: Board, id: string, now: int)
    requires AllLikesConsistent(b.posts)
    ensures AllLikesConsistent(Publish(b, id, now).posts)
    ensures |Publish(b, id, now).posts| == |b.posts| + (if IsBlank(b.draft) then 0 else 1)
  {
  }

  // ---------------------------------------------------------------------------
  // The screen's state and its handlers

  class CommunityScreen {
    var challenges: seq<Challenge>
    var joinedChallenges: seq<string>
    var posts: seq<Post>
    var newPost: string

    function State(): Board
      reads this
    {
      Board(challenges, joinedChallenges, posts, newPost)
    }

    /** No challenge joined twice, and no like count below its own like. */
    predicate Valid()
      reads this
    {
      NoDuplicates(joinedChallenges) && AllLikesConsistent(posts)
    }

    constructor (now: int)
      ensures Valid()
      ensures State() == Board(SeedChallenges, ["2"], SeedPosts(now), "")
    {
      challenges := SeedChallenges;
      joinedChallenges := ["2"];
      posts := SeedPosts(now);
      newPost := "";
    }

    method JoinChallenge(challengeId: string)
      requires Valid()
      modifies this`joinedChallenges, this`challenges
      ensures Valid()
      ensures State() == Join(old(State()), challengeId)
    {
      JoinKeepsNoDuplicates(State(), challengeId);
      if challengeId in joinedChallenges {
        return;
      }
      joinedChallenges := joinedChallenges + [challengeId];
      challenges := BumpParticipants(challenges, challengeId);
    }

    method LikePost(postId: string)
      requires Valid()
      modifies this`posts
      ensures Valid()
      ensures State() == old(State()).(posts := ToggleLikes(old(posts), postId))
    {
      ToggleLikesKeepsConsistent(posts, postId);
      posts := ToggleLikes(posts, postId);
    }

    /** The text area's `onChange`: the draft becomes what was typed. */
    method SetNewPost(text: string)
      modifies this`newPost
      ensures State() == old(State()).(draft := text)
    {
      newPost := text;
    }

    method AddPost(id: string, now: int)
      requires Valid()
      modifies this`posts, this`newPost
      ensures Valid()
      ensures State() == Publish(old(State()), id, now)
    {
      PublishKeepsConsistent(State(), id, now);
      TrimEmptyIffBlank(newPost);
      if Trim(newPost) == "" {
        return;
      }
      posts := [NewPost(id, newPost, now)] + posts;
      newPost := "";
    }
  }
}
