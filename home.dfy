/** The home page (pages/Home.tsx): the search filter over the loaded story
    list and the fallback rule for the owner's portrait. */
module Home {
  import opened Types

  const PROFILE_SRC := "/saad.jpg"
  const FALLBACK_SRC := "https://ui-avatars.com/api/?name=Saad+Albogami&background=111827&color=fff&size=256"

  // ---------------------------------------------------------------------
  // Substring search

  /** `t` occurs in `s` starting at position `k`. */
  ghost predicate OccursAt(t: string, s: string, k: int) {
    0 <= k <= |s| - |t| && s[k..k + |t|] == t
  }

  /** `t` occurs in `s` at some position (the empty `t` always does). */
  ghost predicate IsSubstring(t: string, s: string) {
    exists k :: OccursAt(t, s, k)
  }

  /** `s.includes(t)`: tries every start position from the left. */
  function Includes(s: string, t: string): bool
    decreases |s|
  {
    if |t| > |s| then false
    else if s[..|t|] == t then true
    else Includes(s[1..], t)
  }

  /** An occurrence in the tail is an occurrence one position further on
      in the whole string. */
  lemma OccursInTail(t: string, s: string, k: int)
    requires s != [] && 0 <= k
    ensures OccursAt(t, s[1..], k) <==> OccursAt(t, s, k + 1)
  {
    if 0 <= k <= |s| - 1 - |t| {
      var a, b := s[1..][k..k + |t|], s[k + 1..k + 1 + |t|];
      assert |a| == |b|;
      assert forall j | 0 <= j < |a| :: a[j] == s[k + 1 + j] == b[j];
      assert a == b;
    }
  }

  lemma {:induction false} IncludesIsSubstring(s: string, t: string)
    ensures Includes(s, t) <==> IsSubstring(t, s)
    decreases |s|
  {
    if |t| > |s| {
    } else if s[..|t|] == t {
      assert OccursAt(t, s, 0);
    } else {
      IncludesIsSubstring(s[1..], t);
      if IsSubstring(t, s[1..]) {
        var k :| OccursAt(t, s[1..], k);
        OccursInTail(t, s, k);
      }
      if IsSubstring(t, s) {
        var k :| OccursAt(t, s, k);
        assert k > 0;
        OccursInTail(t, s, k - 1);
      }
    }
  }

  /** The search predicate: the term occurs in the title, the author or the
      description. */
  predicate Matches(story: Story, term: string) {
    Includes(story.title, term) || Includes(story.author, term) || Includes(story.description, term)
  }

  /** `stories.filter(...)` with the search predicate. */
  function FilterStories(stories: seq<Story>, term: string): (r: seq<Story>)
    ensures |r| <= |stories|
    ensures forall y :: y in r <==> y in stories && Matches(y, term)
  {
    if stories == [] then []
    else
      assert stories == [stories[0]] + stories[1..];
      (if Matches(stories[0], term) then [stories[0]] else []) + FilterStories(stories[1..], term)
  }

  /** A story is shown exactly when the search term is a substring of its
      title, author or description. */
  lemma KeptIffSubstring(stories: seq<Story>, term: string, y: Story)
    ensures y in FilterStories(stories, term) <==>
      y in stories && (IsSubstring(term, y.title) || IsSubstring(term, y.author) || IsSubstring(term, y.description))
  {
    IncludesIsSubstring(y.title, term);
    IncludesIsSubstring(y.author, term);
    IncludesIsSubstring(y.description, term);
  }

  /** An empty search box shows every story, in the loaded order. */
  lemma {:induction false} EmptyTermKeepsAll(stories: seq<Story>)
    ensures FilterStories(stories, "") == stories
  {
    if stories != [] {
      assert stories[0].title[..0] == "";
      EmptyTermKeepsAll(stories[1..]);
      assert stories == [stories[0]] + stories[1..];
    }
  }

  /** `a` is `b` with some elements left out, the rest in the same order. */
  ghost predicate IsSublist<T>(a: seq<T>, b: seq<T>)
    decreases |b|
  {
    if a == [] then true
    else if b == [] then false
    else (a[0] == b[0] && IsSublist(a[1..], b[1..])) || IsSublist(a, b[1..])
  }

  /** The filtered list keeps the loaded order. */
  lemma {:induction false} FilterIsSublist(stories: seq<Story>, term: string)
    ensures IsSublist(FilterStories(stories, term), stories)
  {
    if stories != [] {
      var rest := FilterStories(stories[1..], term);
      FilterIsSublist(stories[1..], term);
      if Matches(stories[0], term) {
        assert FilterStories(stories, term) == [stories[0]] + rest;
        assert ([stories[0]] + rest)[1..] == rest;
      } else {
        assert FilterStories(stories, term) == rest;
      }
    }
  }

  // ---------------------------------------------------------------------
  // Portrait fallback

  /** The image's `onError` handler: the new `src` to assign, if any. The
      fallback is assigned only when it is not already the source, so a
      failing fallback does not trigger another load. */
  function OnAvatarError(src: string): (assign: Option<string>)
    ensures assign.Some? <==> src != FALLBACK_SRC
    ensures assign.Some? ==> assign.value == FALLBACK_SRC
  {
    if src != FALLBACK_SRC then Some(FALLBACK_SRC) else None
  }

  /** The source after one load error. */
  function AfterError(src: string): string {
    OnAvatarError(src).GetOr(src)
  }

  /** How many times `src` is reassigned over `errors` consecutive load
      failures starting from `src`. */
  function Swaps(src: string, errors: nat): nat
    decreases errors
  {
    if errors == 0 then 0
    else (if OnAvatarError(src).Some? then 1 else 0) + Swaps(AfterError(src), errors - 1)
  }

  /** However many times the image fails to load, its source is swapped at
      most once, and only away from a non-fallback source. */
  lemma {:induction false} AtMostOneSwap(src: string, errors: nat)
    ensures Swaps(src, errors) <= 1
    ensures src == FALLBACK_SRC ==> Swaps(src, errors) == 0
    decreases errors
  {
    if errors > 0 {
      AtMostOneSwap(AfterError(src), errors - 1);
    }
  }
}
