/**
 * The create-post dialog of the community page: a guard on the trimmed
 * title and content and the chosen category, the post it builds, and the
 * reset that follows a submit.
 */
module PostModal {
  import opened Wrappers
  import opened Text
  import opened Seqs

  /** A community post. */
  datatype Post = Post(
    id: int, title: string, content: string, author: string, category: string,
    timeAgo: string, upvotes: int, downvotes: int, replies: int, helpful: bool,
    tags: seq<string>)

  /** The submit guard: title and content not blank, a category chosen. */
  predicate CanSubmit(title: string, content: string, category: string) {
    !IsBlank(title) && !IsBlank(content) && category != ""
  }

  /**
   * The post a submit builds: trimmed title and content (never empty once
   * the guard holds), the author "You", no votes or replies, not marked
   * helpful, and the comma-separated tags.
   */
  function BuildPost(now: int, title: string, content: string, category: string, tagField: string): (p: Post)
    ensures CanSubmit(title, content, category) ==> p.title != [] && p.content != [] && p.category != ""
    ensures p.author == "You" && p.timeAgo == "Just now" && p.id == now && p.category == category
    ensures p.upvotes == 0 && p.downvotes == 0 && p.replies == 0 && !p.helpful
    ensures p.title == Trim(title) && p.content == Trim(content) && p.tags == Tags(tagField)
  {
    Post(now, Trim(title), Trim(content), "You", category, "Just now", 0, 0, 0, false, Tags(tagField))
  }

  /**
   * The built post's title and content have no whitespace at either end,
   * its tags are non-empty, trimmed and comma-free, and every piece of the
   * tag field that is not blank shows up, trimmed, among them, in the
   * order of the pieces.
   */
  lemma BuiltPostWellFormed(now: int, title: string, content: string, category: string, tagField: string)
    ensures var p := BuildPost(now, title, content, category, tagField);
      && (p.title != [] ==> !IsWhitespace(p.title[0]) && !IsWhitespace(p.title[|p.title| - 1]))
      && (p.content != [] ==> !IsWhitespace(p.content[0]) && !IsWhitespace(p.content[|p.content| - 1]))
      && (forall t :: t in p.tags ==> t != [] && ',' !in t && Trim(t) == t)
      && (forall piece :: piece in Split(tagField, ',') && !IsBlank(piece) ==> Trim(piece) in p.tags)
      && IsSubsequence(p.tags, TrimAll(Split(tagField, ',')))
  {
    TagsInOrder(tagField);
    var tags := Tags(tagField);
    forall t | t in tags ensures t != [] && ',' !in t && Trim(t) == t {
      TagsWellFormed(tagField, t);
    }
    forall piece | piece in Split(tagField, ',') && !IsBlank(piece) ensures Trim(piece) in tags {
      TagsComplete(tagField, piece);
    }
  }

  /** The dialog's form. */
  class CreatePostModal {
    var title: string
    var content: string
    var category: string
    var tags: string

    constructor()
      ensures title == "" && content == "" && category == "" && tags == ""
    {
      title, content, category, tags := "", "", "", "";
    }

    /**
     * `handleSubmit`: when the guard holds, hands the built post to the
     * page, clears the four fields and asks to be closed; otherwise does
     * nothing at all.
     */
    method HandleSubmit(now: int) returns (created: Option<Post>, close: bool)
      modifies this
      ensures CanSubmit(old(title), old(content), old(category)) ==>
        && created == Some(BuildPost(now, old(title), old(content), old(category), old(tags)))
        && close
        && title == "" && content == "" && category == "" && tags == ""
      ensures !CanSubmit(old(title), old(content), old(category)) ==>
        && created == None && !close
        && title == old(title) && content == old(content) && category == old(category) && tags == old(tags)
    {
      if CanSubmit(title, content, category) {
        var post := BuildPost(now, title, content, category, tags);
        title, content, category, tags := "", "", "", "";
        created, close := Some(post), true;
      } else {
        created, close := None, false;
      }
    }

    /** The Post button's disabled state, computed from the trimmed fields. */
    function PostDisabled(): (disabled: bool)
      reads this
      ensures disabled <==> !CanSubmit(title, content, category)
    {
      Trim(title) == "" || Trim(content) == "" || category == ""
    }
  }
}
