/** The browser-side document store (services/storage.ts): three object
    stores — stories keyed by id, categories keyed by name, settings keyed by
    key — behind a versioned database whose upgrade step creates missing
    stores. IndexedDB requests, transactions and promises are replaced by
    direct updates of the collections; every operation first opens the
    database, exactly as each exported function awaits `openDB()`. */
module Storage {
  import opened Types

  const STORIES_STORE := "stories"
  const CATS_STORE := "categories"
  const SETTINGS_STORE := "settings"
  /** Schema version 3 added the settings store. */
  const DB_VERSION: nat := 3

  /** The three object stores the current schema needs. */
  const REQUIRED_STORES: set<string> := {STORIES_STORE, CATS_STORE, SETTINGS_STORE}

  /** Seeded, in this order, into an empty category store. */
  const DEFAULT_CATEGORIES: seq<string> := [
    "ريادة أعمال",
    "تجارة إلكترونية",
    "تطوير ذات",
    "تقنية",
    "روايات",
    "قصص أطفال",
    "شعر وأدب",
    "عام"
  ]

  /** The display name given to every comment ("visitor"). */
  const VISITOR_LABEL := "زائر"
  const STORY_NOT_FOUND := "Story not found"

  // ---------------------------------------------------------------------
  // Specification predicates

  /** Every record is stored under its own `id` (the store's key path). */
  ghost predicate KeyedById(m: map<string, Story>) {
    forall id | id in m :: m[id].id == id
  }

  ghost predicate DistinctIds(s: seq<Story>) {
    forall i, j | 0 <= i < j < |s| :: s[i].id != s[j].id
  }

  /** `s` holds every story of `m` exactly once and nothing else. */
  ghost predicate ListsStore(s: seq<Story>, m: map<string, Story>) {
    && DistinctIds(s)
    && (forall y | y in s :: y.id in m && m[y.id] == y)
    && (forall id | id in m :: m[id] in s)
  }

  /** `s` holds every element of `c` exactly once and nothing else. */
  ghost predicate Enumerates(s: seq<string>, c: set<string>) {
    && (forall i, j | 0 <= i < j < |s| :: s[i] != s[j])
    && (forall x :: x in s <==> x in c)
  }

  /** Newest first: `createdAt` never increases along the list. */
  ghost predicate SortedNewestFirst(s: seq<Story>) {
    forall i, j | 0 <= i < j < |s| :: s[i].createdAt >= s[j].createdAt
  }

  // ---------------------------------------------------------------------
  // The comparator sort of getStories (newest first, stable)

  /** Places `x` before the first element that is not newer than it, so
      that among equal timestamps the earlier element of the input stays
      first (the comparator sort is stable, see SortIsStable). */
  function Insert(x: Story, ys: seq<Story>): (r: seq<Story>)
    ensures multiset(r) == multiset(ys) + multiset{x}
  {
    if ys == [] || x.createdAt >= ys[0].createdAt then [x] + ys
    else
      assert ys == [ys[0]] + ys[1..];
      [ys[0]] + Insert(x, ys[1..])
  }

  /** The list ordered by `createdAt`, most recent first. */
  function SortNewestFirst(xs: seq<Story>): (r: seq<Story>)
    ensures multiset(r) == multiset(xs)
  {
    if xs == [] then []
    else
      assert xs == [xs[0]] + xs[1..];
      Insert(xs[0], SortNewestFirst(xs[1..]))
  }

  lemma {:induction false} InsertSorted(x: Story, ys: seq<Story>)
    requires SortedNewestFirst(ys)
    ensures SortedNewestFirst(Insert(x, ys))
  {
    if ys == [] || x.createdAt >= ys[0].createdAt {
    } else {
      var t := Insert(x, ys[1..]);
      InsertSorted(x, ys[1..]);
      forall y | y in t ensures y.createdAt <= ys[0].createdAt {
        assert y in multiset(t);
        assert y == x || y in multiset(ys[1..]);
      }
      assert Insert(x, ys) == [ys[0]] + t;
    }
  }

  lemma {:induction false} InsertDistinct(x: Story, ys: seq<Story>)
    requires DistinctIds(ys)
    requires forall y | y in ys :: y.id != x.id
    ensures DistinctIds(Insert(x, ys))
  {
    if ys == [] || x.createdAt >= ys[0].createdAt {
    } else {
      var t := Insert(x, ys[1..]);
      InsertDistinct(x, ys[1..]);
      forall y | y in t ensures y.id != ys[0].id {
        assert y in multiset(t);
        assert y == x || y in multiset(ys[1..]);
      }
      assert Insert(x, ys) == [ys[0]] + t;
    }
  }

  /** The result of the sort is newest first. */
  lemma {:induction false} SortIsNewestFirst(xs: seq<Story>)
    ensures SortedNewestFirst(SortNewestFirst(xs))
  {
    if xs != [] {
      SortIsNewestFirst(xs[1..]);
      InsertSorted(xs[0], SortNewestFirst(xs[1..]));
    }
  }

  /** Sorting neither duplicates nor loses a story: a list with distinct
      ids stays so. */
  lemma {:induction false} SortKeepsDistinctIds(xs: seq<Story>)
    requires DistinctIds(xs)
    ensures DistinctIds(SortNewestFirst(xs))
  {
    if xs != [] {
      var t := SortNewestFirst(xs[1..]);
      SortKeepsDistinctIds(xs[1..]);
      forall y | y in t ensures y.id != xs[0].id {
        assert y in multiset(xs[1..]);
      }
      InsertDistinct(xs[0], t);
    }
  }

  /** Sorting a listing of the store yields a listing of the store. */
  lemma SortKeepsStore(xs: seq<Story>, m: map<string, Story>)
    requires ListsStore(xs, m)
    ensures ListsStore(SortNewestFirst(xs), m)
  {
    var r := SortNewestFirst(xs);
    SortKeepsDistinctIds(xs);
    forall y ensures y in r <==> y in xs {
      assert y in r <==> y in multiset(r);
    }
  }

  /** A story strictly newer than every other one is listed first. */
  lemma NewestIsListedFirst(xs: seq<Story>, s: Story)
    requires s in xs
    requires forall y | y in xs && y != s :: y.createdAt < s.createdAt
    ensures |SortNewestFirst(xs)| > 0 && SortNewestFirst(xs)[0] == s
  {
    var r := SortNewestFirst(xs);
    SortIsNewestFirst(xs);
    assert s in multiset(r);
    var k :| 0 <= k < |r| && r[k] == s;
    assert r[0] in multiset(xs);
  }

  /** The stories of `xs` stamped `t`, in their order in `xs`. */
  function WithTime(xs: seq<Story>, t: int): seq<Story>
  {
    if xs == [] then []
    else (if xs[0].createdAt == t then [xs[0]] else []) + WithTime(xs[1..], t)
  }

  /** Inserting `x` puts it ahead of every element with its own timestamp. */
  lemma {:induction false} InsertWithTime(x: Story, ys: seq<Story>, t: int)
    ensures WithTime(Insert(x, ys), t) == (if x.createdAt == t then [x] else []) + WithTime(ys, t)
  {
    if ys == [] || x.createdAt >= ys[0].createdAt {
      assert ([x] + ys)[1..] == ys;
    } else {
      var rest := Insert(x, ys[1..]);
      InsertWithTime(x, ys[1..], t);
      assert ([ys[0]] + rest)[1..] == rest;
      assert WithTime(ys, t) == (if ys[0].createdAt == t then [ys[0]] else []) + WithTime(ys[1..], t);
      assert x.createdAt != t || ys[0].createdAt != t;
    }
  }

  /** The sort is stable: stories with the same timestamp keep their order
      in the input. */
  lemma {:induction false} SortIsStable(xs: seq<Story>, t: int)
    ensures WithTime(SortNewestFirst(xs), t) == WithTime(xs, t)
  {
    if xs != [] {
      SortIsStable(xs[1..], t);
      InsertWithTime(xs[0], SortNewestFirst(xs[1..]), t);
    }
  }

  /** The category rewrite renameCategory applies to one story. */
  function Retag(s: Story, oldName: string, newName: string): Story {
    if s.category == Some(oldName) then s.(category := Some(newName)) else s
  }

  /** The stories of `list` before position `i` are re-tagged in `m`, and
      the later ones are stored as listed. */
  ghost predicate RetaggedUpTo(m: map<string, Story>, list: seq<Story>, i: int, oldName: string, newName: string) {
    forall k | 0 <= k < |list| ::
      list[k].id in m && m[list[k].id] == if k < i then Retag(list[k], oldName, newName) else list[k]
  }

  /** One turn of the renameCategory loop: the story at `i` is written back
      re-tagged when it carries the old name, and skipped otherwise. */
  lemma RetagStep(m: map<string, Story>, list: seq<Story>, i: int, oldName: string, newName: string)
    requires DistinctIds(list) && 0 <= i < |list|
    requires RetaggedUpTo(m, list, i, oldName, newName)
    ensures list[i].category == Some(oldName) ==>
      RetaggedUpTo(m[list[i].id := Retag(list[i], oldName, newName)], list, i + 1, oldName, newName)
    ensures list[i].category != Some(oldName) ==> RetaggedUpTo(m, list, i + 1, oldName, newName)
  {
  }

  /** Once the loop has visited a listing of the whole store, every story
      is re-tagged, and with distinct names none carries the old one. */
  lemma RetaggedAll(before: map<string, Story>, after: map<string, Story>, list: seq<Story>,
                    oldName: string, newName: string)
    requires KeyedById(before) && ListsStore(list, before) && after.Keys == before.Keys
    requires RetaggedUpTo(after, list, |list|, oldName, newName)
    ensures forall id | id in after :: after[id] == Retag(before[id], oldName, newName)
    ensures oldName != newName ==> forall id | id in after :: after[id].category != Some(oldName)
  {
    forall id | id in after
      ensures after[id] == Retag(before[id], oldName, newName)
    {
      var k :| 0 <= k < |list| && list[k] == before[id];
    }
  }

  // ---------------------------------------------------------------------
  // The database

  class Database {
    var version: nat
    var storeNames: set<string>
    var stories: map<string, Story>
    var categories: set<string>
    var settings: map<string, string>

    /** A store that does not exist yet holds nothing; a database at the
        current version has all three stores. */
    ghost predicate Valid()
      reads this
    {
      && version <= DB_VERSION
      && (version == DB_VERSION ==> REQUIRED_STORES <= storeNames)
      && (STORIES_STORE !in storeNames ==> stories == map[])
      && (CATS_STORE !in storeNames ==> categories == {})
      && (SETTINGS_STORE !in storeNames ==> settings == map[])
      && KeyedById(stories)
    }

    /** What `openDB()` guarantees once it resolves. */
    predicate Ready()
      reads this
    {
      version == DB_VERSION && REQUIRED_STORES <= storeNames
    }

    /** A database that has never been opened. */
    constructor ()
      ensures Valid() && version == 0 && storeNames == {}
      ensures stories == map[] && categories == {} && settings == map[]
    {
      version := 0;
      storeNames := {};
      stories := map[];
      categories := {};
      settings := map[];
    }

    /** A database left on disk by an earlier schema version, possibly with
        only some of the stores. */
    constructor FromDisk(version: nat, storeNames: set<string>, stories: map<string, Story>,
                         categories: set<string>, settings: map<string, string>)
      requires version <= DB_VERSION
      requires version == DB_VERSION ==> REQUIRED_STORES <= storeNames
      requires STORIES_STORE !in storeNames ==> stories == map[]
      requires CATS_STORE !in storeNames ==> categories == {}
      requires SETTINGS_STORE !in storeNames ==> settings == map[]
      requires KeyedById(stories)
      ensures Valid()
      ensures this.version == version && this.storeNames == storeNames
      ensures this.stories == stories && this.categories == categories && this.settings == settings
    {
      this.version := version;
      this.storeNames := storeNames;
      this.stories := stories;
      this.categories := categories;
      this.settings := settings;
    }

    /** `createObjectStore` fails on a name that already exists, so the
        caller must check first. */
    method CreateObjectStore(name: string)
      requires name !in storeNames
      modifies this`storeNames
      ensures storeNames == old(storeNames) + {name}
    {
      storeNames := storeNames + {name};
    }

    /** The `onupgradeneeded` step: creates each missing store and leaves
        existing stores, and their data, alone. */
    method OnUpgradeNeeded()
      modifies this`storeNames
      ensures storeNames == old(storeNames) + REQUIRED_STORES
    {
      if STORIES_STORE !in storeNames {
        CreateObjectStore(STORIES_STORE);
      }
      if CATS_STORE !in storeNames {
        CreateObjectStore(CATS_STORE);
      }
      if SETTINGS_STORE !in storeNames {
        CreateObjectStore(SETTINGS_STORE);
      }
    }

    /** `openDB()`: runs the upgrade step when the stored version is older
        than the requested one. No data is touched. */
    method Open()
      requires Valid()
      modifies this
      ensures Valid() && Ready() && storeNames == old(storeNames) + REQUIRED_STORES
      ensures stories == old(stories) && categories == old(categories) && settings == old(settings)
    {
      if version < DB_VERSION {
        OnUpgradeNeeded();
        version := DB_VERSION;
      }
    }

    // --- Settings -------------------------------------------------------

    method GetSetting(key: string) returns (value: Option<string>)
      requires Valid()
      modifies this
      ensures Valid() && Ready() && storeNames == old(storeNames) + REQUIRED_STORES
      ensures stories == old(stories) && categories == old(categories) && settings == old(settings)
      ensures value.Some? <==> key in settings
      ensures value.Some? ==> value.value == settings[key]
    {
      Open();
      value := if key in settings then Some(settings[key]) else None;
    }

    method SaveSetting(key: string, value: string)
      requires Valid()
      modifies this
      ensures Valid() && Ready() && storeNames == old(storeNames) + REQUIRED_STORES
      ensures stories == old(stories) && categories == old(categories)
      ensures settings == old(settings)[key := value]
    {
      Open();
      settings := settings[key := value];
    }

    // --- Categories -----------------------------------------------------

    /** `getAll()` on the category store. */
    method AllCategories() returns (names: seq<string>)
      ensures Enumerates(names, categories)
    {
      names := [];
      var rest := categories;
      while rest != {}
        invariant rest <= categories
        invariant forall i, j | 0 <= i < j < |names| :: names[i] != names[j]
        invariant forall x :: x in names <==> x in categories - rest
        decreases rest
      {
        var name :| name in rest;
        assert name !in names;
        names := names + [name];
        rest := rest - {name};
      }
    }

    /** Lists the category names; an empty store is first seeded with the
        defaults, which are then returned in their declared order. */
    method GetCategories() returns (names: seq<string>)
      requires Valid()
      modifies this
      ensures Valid() && Ready() && storeNames == old(storeNames) + REQUIRED_STORES
      ensures stories == old(stories) && settings == old(settings)
      ensures old(categories) == {} ==>
        names == DEFAULT_CATEGORIES && forall n :: n in categories <==> n in DEFAULT_CATEGORIES
      ensures old(categories) != {} ==> categories == old(categories) && Enumerates(names, categories)
    {
      Open();
      var cats := AllCategories();
      if |cats| == 0 {
        var i := 0;
        while i < |DEFAULT_CATEGORIES|
          invariant 0 <= i <= |DEFAULT_CATEGORIES|
          invariant Valid() && Ready() && storeNames == old(storeNames) + REQUIRED_STORES
          invariant stories == old(stories) && settings == old(settings)
          invariant forall n :: n in categories <==> n in DEFAULT_CATEGORIES[..i]
        {
          SaveCategory(DEFAULT_CATEGORIES[i]);
          i := i + 1;
        }
        assert DEFAULT_CATEGORIES[..i] == DEFAULT_CATEGORIES;
        names := DEFAULT_CATEGORIES;
      } else {
        assert cats[0] in categories;
        names := cats;
      }
    }

    method SaveCategory(name: string)
      requires Valid()
      modifies this
      ensures Valid() && Ready() && storeNames == old(storeNames) + REQUIRED_STORES
      ensures stories == old(stories) && settings == old(settings)
      ensures categories == old(categories) + {name}
    {
      Open();
      categories := categories + {name};
    }

    /** Removes the name only; stories tagged with it keep their tag. */
    method DeleteCategory(name: string)
      requires Valid()
      modifies this
      ensures Valid() && Ready() && storeNames == old(storeNames) + REQUIRED_STORES
      ensures stories == old(stories) && settings == old(settings)
      ensures categories == old(categories) - {name}
    {
      Open();
      categories := categories - {name};
    }

    /** Deletes the old name, adds the new one, then re-tags and persists
        every story that carried the old name. */
    method RenameCategory(oldName: string, newName: string)
      requires Valid()
      modifies this
      ensures Valid() && Ready() && storeNames == old(storeNames) + REQUIRED_STORES
      ensures settings == old(settings)
      ensures categories == old(categories) - {oldName} + {newName}
      ensures stories.Keys == old(stories).Keys && |stories| == |old(stories)|
      ensures forall id | id in stories :: stories[id] == Retag(old(stories)[id], oldName, newName)
      ensures oldName != newName ==>
        oldName !in categories && forall id | id in stories :: stories[id].category != Some(oldName)
    {
      DeleteCategory(oldName);
      SaveCategory(newName);
      var list := GetStories();
      assert ListsStore(list, old(stories));
      var i := 0;
      while i < |list|
        invariant 0 <= i <= |list|
        invariant Valid() && Ready() && storeNames == old(storeNames) + REQUIRED_STORES
        invariant settings == old(settings)
        invariant categories == old(categories) - {oldName} + {newName}
        invariant stories.Keys == old(stories).Keys
        invariant RetaggedUpTo(stories, list, i, oldName, newName)
      {
        var story := list[i];
        RetagStep(stories, list, i, oldName, newName);
        if story.category == Some(oldName) {
          story := story.(category := Some(newName));
          UpdateStory(story);
        }
        i := i + 1;
      }
      RetaggedAll(old(stories), stories, list, oldName, newName);
    }

    // --- Stories --------------------------------------------------------

    /** `getAll()` on the story store. */
    method AllStories() returns (list: seq<Story>)
      requires Valid()
      ensures ListsStore(list, stories)
    {
      list := [];
      var rest := stories.Keys;
      while rest != {}
        invariant rest <= stories.Keys
        invariant DistinctIds(list)
        invariant forall y | y in list :: y.id in stories && stories[y.id] == y && y.id !in rest
        invariant forall id | id in stories && id !in rest :: stories[id] in list
        decreases rest
      {
        var id :| id in rest;
        list := list + [stories[id]];
        rest := rest - {id};
      }
    }

    /** Every stored story exactly once, newest first. */
    method GetStories() returns (list: seq<Story>)
      requires Valid()
      modifies this
      ensures Valid() && Ready() && storeNames == old(storeNames) + REQUIRED_STORES
      ensures stories == old(stories) && categories == old(categories) && settings == old(settings)
      ensures ListsStore(list, stories) && SortedNewestFirst(list)
    {
      Open();
      var all := AllStories();
      SortKeepsStore(all, stories);
      SortIsNewestFirst(all);
      list := SortNewestFirst(all);
    }

    /** Upsert by id: inserts a new record or replaces the one stored under
        the same id. */
    method SaveStory(story: Story)
      requires Valid()
      modifies this
      ensures Valid() && Ready() && storeNames == old(storeNames) + REQUIRED_STORES
      ensures categories == old(categories) && settings == old(settings)
      ensures stories == old(stories)[story.id := story]
      ensures |stories| == |old(stories)| + (if story.id in old(stories) then 0 else 1)
    {
      Open();
      stories := stories[story.id := story];
    }

    method GetStoryById(id: string) returns (story: Option<Story>)
      requires Valid()
      modifies this
      ensures Valid() && Ready() && storeNames == old(storeNames) + REQUIRED_STORES
      ensures stories == old(stories) && categories == old(categories) && settings == old(settings)
      ensures story.Some? <==> id in stories
      ensures story.Some? ==> story.value == stories[id] && story.value.id == id
    {
      Open();
      story := if id in stories then Some(stories[id]) else None;
    }

    /** Forwards to SaveStory. */
    method UpdateStory(story: Story)
      requires Valid()
      modifies this
      ensures Valid() && Ready() && storeNames == old(storeNames) + REQUIRED_STORES
      ensures categories == old(categories) && settings == old(settings)
      ensures stories == old(stories)[story.id := story]
    {
      SaveStory(story);
    }

    /** Deleting a missing id is not an error and changes nothing. */
    method DeleteStory(id: string)
      requires Valid()
      modifies this
      ensures Valid() && Ready() && storeNames == old(storeNames) + REQUIRED_STORES
      ensures categories == old(categories) && settings == old(settings)
      ensures stories == old(stories) - {id}
      ensures id !in old(stories) ==> stories == old(stories)
    {
      Open();
      stories := stories - {id};
    }

    /** Appends a visitor comment to the end of the story's comment list and
        persists the whole story; fails when the story does not exist. */
    method AddComment(storyId: string, text: string, commentId: string, now: int)
      returns (r: Result<Comment>)
      requires Valid()
      modifies this
      ensures Valid() && Ready() && storeNames == old(storeNames) + REQUIRED_STORES
      ensures categories == old(categories) && settings == old(settings)
      ensures storyId !in old(stories) ==> r == Failure(STORY_NOT_FOUND) && stories == old(stories)
      ensures storyId in old(stories) ==>
        && r == Success(Comment(commentId, VISITOR_LABEL, text, now))
        && stories == old(stories)[storyId :=
             old(stories)[storyId].(comments := old(stories)[storyId].comments + [r.value])]
    {
      var story := GetStoryById(storyId);
      if story.None? {
        return Failure(STORY_NOT_FOUND);
      }
      var comment := Comment(commentId, VISITOR_LABEL, text, now);
      var updated := story.value.(comments := story.value.comments + [comment]);
      UpdateStory(updated);
      return Success(comment);
    }
  }
}
