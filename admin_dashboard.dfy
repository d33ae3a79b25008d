/** The owner's dashboard (pages/AdminDashboard.tsx): the totals shown in
    the stat cards, computed by folds over the loaded list, the table's
    description preview, and deletion with confirmation. */
module AdminDashboard {
  import opened Types
  import Storage

  datatype Stats = Stats(totalStories: nat, totalViews: int, totalLikes: int, totalDownloads: int)

  /** The number of characters of the description shown in the table. */
  const PREVIEW_LENGTH: nat := 30

  function Views(s: Story): nat { s.views }
  function Likes(s: Story): nat { s.likes }
  /** `curr.downloads || 0`: records without the counter count as 0. */
  function Downloads(s: Story): nat { s.downloads.GetOr(0) }

  /** `xs.reduce((acc, curr) => acc + f(curr), acc)`: a fold from the left. */
  function Reduce(xs: seq<Story>, acc: int, f: Story -> nat): int
    decreases |xs|
  {
    if xs == [] then acc else Reduce(xs[1..], acc + f(xs[0]), f)
  }

  /** The sum of `f` over the list, as a reference for the folds. */
  function Sum(xs: seq<Story>, f: Story -> nat): nat
    decreases |xs|
  {
    if xs == [] then 0 else f(xs[0]) + Sum(xs[1..], f)
  }

  lemma {:induction false} ReduceIsSum(xs: seq<Story>, acc: int, f: Story -> nat)
    ensures Reduce(xs, acc, f) == acc + Sum(xs, f)
    decreases |xs|
  {
    if xs != [] {
      ReduceIsSum(xs[1..], acc + f(xs[0]), f);
    }
  }

  /** The stat cards: the count of the list and the sums of its counters. */
  function ComputeStats(data: seq<Story>): (st: Stats)
    ensures st.totalStories == |data|
    ensures st.totalViews == Sum(data, Views)
    ensures st.totalLikes == Sum(data, Likes)
    ensures st.totalDownloads == Sum(data, Downloads)
  {
    ReduceIsSum(data, 0, Views);
    ReduceIsSum(data, 0, Likes);
    ReduceIsSum(data, 0, Downloads);
    Stats(|data|, Reduce(data, 0, Views), Reduce(data, 0, Likes), Reduce(data, 0, Downloads))
  }

  lemma {:induction false} SumAppend(xs: seq<Story>, ys: seq<Story>, f: Story -> nat)
    ensures Sum(xs + ys, f) == Sum(xs, f) + Sum(ys, f)
    decreases |xs|
  {
    if xs == [] {
      assert xs + ys == ys;
    } else {
      assert (xs + ys)[1..] == xs[1..] + ys;
      SumAppend(xs[1..], ys, f);
    }
  }

  /** A sum does not depend on the order of the list. */
  lemma {:induction false} SumPermutation(xs: seq<Story>, ys: seq<Story>, f: Story -> nat)
    requires multiset(xs) == multiset(ys)
    ensures Sum(xs, f) == Sum(ys, f)
    decreases |xs|
  {
    if xs != [] {
      var x := xs[0];
      assert x in multiset(ys);
      var j :| 0 <= j < |ys| && ys[j] == x;
      var rest := ys[..j] + ys[j + 1..];
      assert ys == ys[..j] + [x] + ys[j + 1..];
      assert xs == [x] + xs[1..];
      assert multiset(xs) == multiset{x} + multiset(xs[1..]);
      assert multiset(ys) == multiset(ys[..j]) + multiset{x} + multiset(ys[j + 1..]);
      assert multiset(rest) == multiset(ys[..j]) + multiset(ys[j + 1..]);
      assert multiset(rest) == multiset(ys) - multiset{x};
      assert multiset(xs[1..]) == multiset(xs) - multiset{x};
      SumPermutation(xs[1..], rest, f);
      SumAppend(ys[..j] + [x], ys[j + 1..], f);
      SumAppend(ys[..j], [x], f);
      SumAppend(ys[..j], ys[j + 1..], f);
    }
  }

  /** The totals are the same whatever order the list is in. */
  lemma StatsIgnoreOrder(xs: seq<Story>, ys: seq<Story>)
    requires multiset(xs) == multiset(ys)
    ensures ComputeStats(xs) == ComputeStats(ys)
  {
    assert |xs| == |multiset(xs)| == |ys|;
    SumPermutation(xs, ys, Views);
    SumPermutation(xs, ys, Likes);
    SumPermutation(xs, ys, Downloads);
  }

  /** `description.substring(0, 30)`. */
  function DescriptionPreview(description: string): (p: string)
    ensures |p| <= PREVIEW_LENGTH && p <= description
    ensures |description| <= PREVIEW_LENGTH ==> p == description
    ensures |description| > PREVIEW_LENGTH ==> |p| == PREVIEW_LENGTH
  {
    if |description| <= PREVIEW_LENGTH then description else description[..PREVIEW_LENGTH]
  }

  /** The page state: the displayed list and the stat cards. */
  class Dashboard {
    var stories: seq<Story>
    var stats: Stats

    constructor ()
      ensures stories == [] && stats == Stats(0, 0, 0, 0)
    {
      stories := [];
      stats := Stats(0, 0, 0, 0);
    }

    /** Reads the list and recomputes the stats from that same list. */
    method LoadData(db: Storage.Database)
      requires db.Valid()
      modifies this, db
      ensures db.Valid() && db.Ready()
      ensures db.stories == old(db.stories) && db.categories == old(db.categories)
      ensures db.settings == old(db.settings)
      ensures Storage.ListsStore(stories, db.stories) && Storage.SortedNewestFirst(stories)
      ensures stats == ComputeStats(stories)
    {
      var data := db.GetStories();
      stories := data;
      stats := ComputeStats(data);
    }

    /** Deletes only when the owner confirms, then reloads the list. */
    method HandleDelete(db: Storage.Database, id: string, confirmed: bool)
      requires db.Valid()
      modifies this, db
      ensures db.Valid()
      ensures !confirmed ==> unchanged(this, db)
      ensures confirmed ==>
        && db.stories == old(db.stories) - {id}
        && db.categories == old(db.categories) && db.settings == old(db.settings)
        && Storage.ListsStore(stories, db.stories) && Storage.SortedNewestFirst(stories)
        && stats == ComputeStats(stories)
    {
      if confirmed {
        db.DeleteStory(id);
        LoadData(db);
      }
    }
  }
}
