/** The story page (pages/StoryDetails.tsx): the view count bumped when the
    page opens, the like, dislike and download counters, the comment form
    with its blank-text guard, and the newest-first comment list. Each
    handler copies the page's story with one field changed, keeps the copy
    and writes it to the store. */
module StoryDetails {
  import opened Types
  import Storage

  // ---------------------------------------------------------------------
  // String.prototype.trim

  /** The ECMAScript WhiteSpace and LineTerminator code points, which
      `trim` removes from both ends. */
  predicate IsJsWhitespace(c: char) {
    var n := c as int;
    n == 0x09 || n == 0x0A || n == 0x0B || n == 0x0C || n == 0x0D || n == 0x20 || n == 0xA0
    || n == 0x1680 || (0x2000 <= n <= 0x200A) || n == 0x2028 || n == 0x2029
    || n == 0x202F || n == 0x205F || n == 0x3000 || n == 0xFEFF
  }

  /** Drops the leading whitespace. */
  function TrimStart(s: string): (r: string)
    ensures |r| <= |s| && r == s[|s| - |r|..]
    ensures forall i | 0 <= i < |s| - |r| :: IsJsWhitespace(s[i])
    ensures r == [] || !IsJsWhitespace(r[0])
    decreases |s|
  {
    if s != [] && IsJsWhitespace(s[0]) then TrimStart(s[1..]) else s
  }

  /** Drops the trailing whitespace. */
  function TrimEnd(s: string): (r: string)
    ensures |r| <= |s| && r == s[..|r|]
    ensures forall i | |r| <= i < |s| :: IsJsWhitespace(s[i])
    ensures r == [] || !IsJsWhitespace(r[|r| - 1])
    decreases |s|
  {
    if s != [] && IsJsWhitespace(s[|s| - 1]) then TrimEnd(s[..|s| - 1]) else s
  }

  function Trim(s: string): string {
    TrimEnd(TrimStart(s))
  }

  /** `!text.trim()`: the trimmed text is the empty string. */
  predicate IsBlank(text: string) {
    Trim(text) == ""
  }

  /** A comment is blank exactly when every character of it is whitespace. */
  lemma BlankIffAllWhitespace(text: string)
    ensures IsBlank(text) <==> forall i | 0 <= i < |text| :: IsJsWhitespace(text[i])
  {
  }

  // ---------------------------------------------------------------------
  // Comment list

  /** `comments.slice().reverse()`. */
  function DisplayedComments(comments: seq<Comment>): (shown: seq<Comment>)
    ensures |shown| == |comments|
    ensures forall i | 0 <= i < |comments| :: shown[i] == comments[|comments| - 1 - i]
    decreases |comments|
  {
    if comments == [] then [] else [comments[|comments| - 1]] + DisplayedComments(comments[..|comments| - 1])
  }

  /** The list shows every stored comment, and a comment just added goes to
      the top with the earlier list below it unchanged. */
  lemma {:induction false} NewestCommentFirst(comments: seq<Comment>, c: Comment)
    ensures multiset(DisplayedComments(comments)) == multiset(comments)
    ensures DisplayedComments(comments + [c]) == [c] + DisplayedComments(comments)
  {
    var n := |comments|;
    if n > 0 {
      var front := comments[..n - 1];
      assert comments == front + [comments[n - 1]];
      NewestCommentFirst(front, comments[n - 1]);
    }
    assert (comments + [c])[..n] == comments;
  }

  // ---------------------------------------------------------------------
  // Page state

  class DetailsPage {
    const db: Storage.Database
    /** The `id` prop. */
    const id: string
    /** `undefined` until the effect finds the story. */
    var story: Option<Story>
    /** The comment input. */
    var newComment: string

    /** The store is usable and the page holds the story it was opened
        for. */
    ghost predicate Valid()
      reads this, db
    {
      db.Valid() && (story.Some? ==> story.value.id == id)
    }

    /** The displayed story is the stored one. */
    ghost predicate Synced()
      reads this, db
    {
      story.Some? ==> id in db.stories && db.stories[id] == story.value
    }

    constructor (db: Storage.Database, id: string)
      requires db.Valid()
      ensures Valid() && this.db == db && this.id == id
      ensures story == None && newComment == ""
    {
      this.db := db;
      this.id := id;
      story := None;
      newComment := "";
    }

    /** Shows `updated` and writes it to the store. */
    method Persist(updated: Story)
      requires Valid() && updated.id == id
      modifies this`story, db
      ensures Valid() && Synced() && story == Some(updated)
      ensures db.stories == old(db.stories)[id := updated]
      ensures db.categories == old(db.categories) && db.settings == old(db.settings)
    {
      story := Some(updated);
      db.UpdateStory(updated);
    }

    /** The effect run when the page opens: a found story is shown with its
        view count one higher, and that count is stored; a missing id
        leaves the page on its not-found view. */
    method OnOpen()
      requires Valid()
      modifies this`story, db
      ensures Valid()
      ensures db.categories == old(db.categories) && db.settings == old(db.settings)
      ensures id !in old(db.stories) ==> story == old(story) && db.stories == old(db.stories)
      ensures id in old(db.stories) ==>
        && story == Some(old(db.stories)[id].(views := old(db.stories)[id].views + 1))
        && db.stories == old(db.stories)[id := story.value]
        && Synced()
    {
      var data := db.GetStoryById(id);
      if data.Some? {
        var updated := data.value.(views := data.value.views + 1);
        Persist(updated);
      }
    }

    method HandleLike()
      requires Valid()
      modifies this`story, db
      ensures Valid()
      ensures old(story).None? ==> unchanged(this, db)
      ensures old(story).Some? ==>
        && story == Some(old(story).value.(likes := old(story).value.likes + 1))
        && db.stories == old(db.stories)[id := story.value]
        && db.categories == old(db.categories) && db.settings == old(db.settings)
        && Synced()
    {
      if story.None? {
        return;
      }
      Persist(story.value.(likes := story.value.likes + 1));
    }

    method HandleDislike()
      requires Valid()
      modifies this`story, db
      ensures Valid()
      ensures old(story).None? ==> unchanged(this, db)
      ensures old(story).Some? ==>
        && story == Some(old(story).value.(dislikes := old(story).value.dislikes + 1))
        && db.stories == old(db.stories)[id := story.value]
        && db.categories == old(db.categories) && db.settings == old(db.settings)
        && Synced()
    {
      if story.None? {
        return;
      }
      Persist(story.value.(dislikes := story.value.dislikes + 1));
    }

    /** A record stored before the download counter existed counts from 0. */
    method HandleDownload()
      requires Valid()
      modifies this`story, db
      ensures Valid()
      ensures old(story).None? ==> unchanged(this, db)
      ensures old(story).Some? ==>
        && story == Some(old(story).value.(downloads := Some(old(story).value.downloads.GetOr(0) + 1)))
        && db.stories == old(db.stories)[id := story.value]
        && db.categories == old(db.categories) && db.settings == old(db.settings)
        && Synced()
    {
      if story.None? {
        return;
      }
      var currentDownloads := story.value.downloads.GetOr(0);
      Persist(story.value.(downloads := Some(currentDownloads + 1)));
    }

    /** Submits the comment box: nothing happens without a story or with
        blank text; otherwise one comment with the text as typed is added,
        the page shows the stored story again and the box is cleared.
        `commentId` and `now` stand for the clock readings of `addComment`. */
    method HandleCommentSubmit(commentId: string, now: int)
      requires Valid()
      modifies this, db
      ensures Valid()
      ensures old(story).None? || IsBlank(old(newComment)) ==> unchanged(this, db)
      ensures old(story).Some? && !IsBlank(old(newComment)) ==>
        && newComment == ""
        && db.categories == old(db.categories) && db.settings == old(db.settings)
        && (id !in old(db.stories) ==> story == old(story) && db.stories == old(db.stories))
        && (id in old(db.stories) ==>
             && db.stories == old(db.stories)[id := old(db.stories)[id].(comments :=
                  old(db.stories)[id].comments + [Comment(commentId, Storage.VISITOR_LABEL, old(newComment), now)])]
             && story == Some(db.stories[id])
             && Synced())
    {
      if story.None? || IsBlank(newComment) {
        return;
      }
      var _ := db.AddComment(story.value.id, newComment, commentId, now);
      var updated := db.GetStoryById(story.value.id);
      if updated.Some? {
        story := updated;
      }
      newComment := "";
    }
  }
}
