/** The portfolio content store, synchronous part: the filter and search
    state, the lists derived from the content cards (filtered, featured,
    recent), and the admin edits on the card lists. */
module Portfolio {

  import opened Sequences

  /** Of a content card's metadata only the featured flag is read. */
  datatype ContentMetadata = ContentMetadata(isFeatured: bool)

  datatype ContentCard = ContentCard(
    id: string,
    title: string,
    excerpt: string,
    content: string,
    categories: seq<string>,
    tags: seq<string>,
    cardType: string,
    status: string,
    publishedAt: int,  // a timestamp; later is larger
    metadata: ContentMetadata)

  /** A `Partial<ContentClusterCard>`. */
  datatype ContentCardUpdate = ContentCardUpdate(
    id: Option<string>,
    title: Option<string>,
    excerpt: Option<string>,
    content: Option<string>,
    categories: Option<seq<string>>,
    tags: Option<seq<string>>,
    cardType: Option<string>,
    status: Option<string>,
    publishedAt: Option<int>,
    metadata: Option<ContentMetadata>)

  function ApplyContentUpdate(c: ContentCard, u: ContentCardUpdate): ContentCard {
    ContentCard(
      u.id.GetOr(c.id), u.title.GetOr(c.title), u.excerpt.GetOr(c.excerpt),
      u.content.GetOr(c.content), u.categories.GetOr(c.categories), u.tags.GetOr(c.tags),
      u.cardType.GetOr(c.cardType), u.status.GetOr(c.status),
      u.publishedAt.GetOr(c.publishedAt), u.metadata.GetOr(c.metadata))
  }

  datatype BioCard = BioCard(id: string, cardType: string, title: string, isActive: bool)

  /** A `Partial<BioClusterCard>`. */
  datatype BioCardUpdate = BioCardUpdate(
    id: Option<string>, cardType: Option<string>, title: Option<string>, isActive: Option<bool>)

  function ApplyBioUpdate(c: BioCard, u: BioCardUpdate): BioCard {
    BioCard(u.id.GetOr(c.id), u.cardType.GetOr(c.cardType), u.title.GetOr(c.title), u.isActive.GetOr(c.isActive))
  }

  datatype ActiveFilters = ActiveFilters(categories: seq<string>, tags: seq<string>, cardTypes: seq<string>)

  const NoFilters: ActiveFilters := ActiveFilters([], [], [])
  const Published: string := "published"
  const FeaturedLimit: nat := 5
  const RecentLimit: nat := 10

  // ---- filter lists ----

  predicate NoDuplicates(s: seq<string>) {
    forall i, j :: 0 <= i < j < |s| ==> s[i] != s[j]
  }

  /** Appends `v` unless it is already present. */
  function AddUnique(s: seq<string>, v: string): (r: seq<string>)
    ensures v in s ==> r == s
    ensures v !in s ==> r == s + [v]
    ensures forall x :: x in r <==> x in s || x == v
    ensures NoDuplicates(s) ==> NoDuplicates(r)
  {
    if v in s then s else s + [v]
  }

  /** Removes every occurrence of `v`, keeping the rest in order. */
  function RemoveAll(s: seq<string>, v: string): (r: seq<string>)
    ensures v !in r
    ensures forall x :: x in r <==> x in s && x != v
    ensures IsSubsequence(r, s)
    ensures forall x :: multiset(r)[x] == if x != v then multiset(s)[x] else 0
    ensures v !in s ==> r == s
  {
    var keep := (x: string) => x != v;
    if v !in s then
      FilterKeepsAll(s, keep);
      Filter(s, keep)
    else
      Filter(s, keep)
  }

  // ---- text matching ----

  /** The code points that `String.prototype.trim` removes. */
  predicate IsTrimmable(c: char) {
    c == ' ' || c == '\t' || c == '\n' || c == '\r' || c == '\U{000B}' || c == '\U{000C}' ||
    c == '\U{00A0}' || c == '\U{1680}' || ('\U{2000}' <= c <= '\U{200A}') ||
    c == '\U{2028}' || c == '\U{2029}' || c == '\U{202F}' || c == '\U{205F}' ||
    c == '\U{3000}' || c == '\U{FEFF}'
  }

  /** Every character is white space or a line terminator. */
  predicate IsBlank(s: string) {
    s == [] || (IsTrimmable(s[0]) && IsBlank(s[1..]))
  }

  /** A string is blank exactly when every character in it is trimmable. */
  lemma {:induction false} BlankIffAllTrimmable(s: string)
    ensures IsBlank(s) <==> forall i :: 0 <= i < |s| ==> IsTrimmable(s[i])
  {
    if s != [] {
      BlankIffAllTrimmable(s[1..]);
      assert forall i :: 0 < i < |s| ==> s[i] == s[1..][i - 1];
    }
  }

  /** `s` without its leading white space: a suffix of `s`. */
  function TrimStart(s: string): (r: string)
    ensures |r| <= |s| && r == s[|s| - |r|..]
    ensures r == [] <==> IsBlank(s)
    ensures r != [] ==> !IsTrimmable(r[0])
    ensures forall i :: 0 <= i < |s| - |r| ==> IsTrimmable(s[i])
    decreases |s|
  {
    if s != [] && IsTrimmable(s[0]) then
      assert forall i :: 0 < i < |s| ==> s[i] == s[1..][i - 1];
      TrimStart(s[1..])
    else
      s
  }

  /** `s` without its trailing white space: a prefix of `s`. */
  function TrimEnd(s: string): (r: string)
    ensures |r| <= |s| && r == s[..|r|]
    ensures r == [] <==> IsBlank(s)
    ensures r != [] ==> !IsTrimmable(r[|r| - 1])
    ensures forall i :: |r| <= i < |s| ==> IsTrimmable(s[i])
    decreases |s|
  {
    BlankIffAllTrimmable(s);
    if s != [] && IsTrimmable(s[|s| - 1]) then
      assert forall i :: 0 <= i < |s| - 1 ==> s[i] == s[..|s| - 1][i];
      TrimEnd(s[..|s| - 1])
    else
      s
  }

  /** `s.trim()`: empty exactly when `s` is blank, and otherwise starting and
      ending with a character that is kept. It is a prefix of `TrimStart(s)`,
      itself the suffix of `s` after its leading white space, and everything
      after it in `TrimStart(s)` is white space: only white space is cut. */
  function Trim(s: string): (r: string)
    ensures r == [] <==> IsBlank(s)
    ensures r != [] ==> !IsTrimmable(r[0]) && !IsTrimmable(r[|r| - 1])
    ensures |r| <= |TrimStart(s)| && r == TrimStart(s)[..|r|]
    ensures forall i :: |r| <= i < |TrimStart(s)| ==> IsTrimmable(TrimStart(s)[i])
  {
    var t := TrimStart(s);
    var r := TrimEnd(t);
    assert t != [] ==> !IsBlank(t);
    assert r != [] ==> r[0] == t[0];
    r
  }

  function LowerChar(c: char): char {
    if 'A' <= c <= 'Z' then (c as int + 32) as char else c
  }

  /** `toLowerCase`, for the ASCII letters: no capital letter is left, and
      every other character is kept in place. */
  function Lower(s: string): (r: string)
    ensures |r| == |s|
    ensures forall i :: 0 <= i < |r| ==> !('A' <= r[i] <= 'Z')
    ensures forall i :: 0 <= i < |s| && !('A' <= s[i] <= 'Z') ==> r[i] == s[i]
    ensures forall i :: 0 <= i < |s| && 'A' <= s[i] <= 'Z' ==>
      'a' <= r[i] <= 'z' && r[i] as int - 'a' as int == s[i] as int - 'A' as int
  {
    seq(|s|, i requires 0 <= i < |s| => LowerChar(s[i]))
  }

  predicate IsPrefix(p: string, s: string) {
    |p| <= |s| && s[..|p|] == p
  }

  /** `hay.includes(needle)`, by trying each start position in turn. The
      empty needle is found in every string, and no needle longer than the
      string is found. */
  predicate Includes(hay: string, needle: string)
    ensures |needle| == 0 ==> Includes(hay, needle)
    ensures Includes(hay, needle) ==> |needle| <= |hay|
    decreases |hay|
  {
    IsPrefix(needle, hay) || (hay != [] && Includes(hay[1..], needle))
  }

  /** `needle` occurs in `hay` starting at index `k`. */
  predicate OccursAt(hay: string, needle: string, k: nat) {
    k + |needle| <= |hay| && hay[k..k + |needle|] == needle
  }

  lemma {:induction false} IncludesAt(hay: string, needle: string, k: nat)
    requires OccursAt(hay, needle, k)
    ensures Includes(hay, needle)
    decreases k
  {
    if k > 0 {
      assert hay[1..][k - 1..k - 1 + |needle|] == needle;
      IncludesAt(hay[1..], needle, k - 1);
    }
  }

  /** `includes` finds the needle exactly when it occurs at some index. */
  lemma {:induction false} IncludesIffOccurs(hay: string, needle: string)
    ensures Includes(hay, needle) <==> exists k: nat :: OccursAt(hay, needle, k)
    decreases |hay|
  {
    if exists k: nat :: OccursAt(hay, needle, k) {
      var k: nat :| OccursAt(hay, needle, k);
      IncludesAt(hay, needle, k);
    }
    if Includes(hay, needle) {
      if IsPrefix(needle, hay) {
        assert OccursAt(hay, needle, 0);
      } else {
        IncludesIffOccurs(hay[1..], needle);
        var k: nat :| OccursAt(hay[1..], needle, k);
        assert hay[1..][k..k + |needle|] == hay[k + 1..k + 1 + |needle|];
        assert OccursAt(hay, needle, k + 1);
      }
    }
  }

  /** The search matches the title, excerpt, body, a category or a tag,
      each lower-cased. */
  predicate MatchesQuery(c: ContentCard, q: string)
    ensures q == [] ==> MatchesQuery(c, q)
  {
    Includes(Lower(c.title), q) || Includes(Lower(c.excerpt), q) || Includes(Lower(c.content), q) ||
    (exists cat :: cat in c.categories && Includes(Lower(cat), q)) ||
    (exists tag :: tag in c.tags && Includes(Lower(tag), q))
  }

  predicate SharesAny(xs: seq<string>, ys: seq<string>) {
    exists x :: x in xs && x in ys
  }

  predicate MatchesSearch(c: ContentCard, query: string) {
    MatchesQuery(c, Lower(query))
  }

  predicate InCategories(c: ContentCard, f: ActiveFilters) {
    SharesAny(c.categories, f.categories)
  }

  predicate InTags(c: ContentCard, f: ActiveFilters) {
    SharesAny(c.tags, f.tags)
  }

  predicate OfCardType(c: ContentCard, f: ActiveFilters) {
    c.cardType in f.cardTypes
  }

  /** Whether a card passes every active filter: a non-blank search, and each
      non-empty filter list. */
  predicate Admitted(c: ContentCard, query: string, f: ActiveFilters) {
    (IsBlank(query) || MatchesSearch(c, query)) &&
    (|f.categories| == 0 || InCategories(c, f)) &&
    (|f.tags| == 0 || InTags(c, f)) &&
    (|f.cardTypes| == 0 || OfCardType(c, f))
  }

  // ---- derived lists ----

  /** One step of the filter chain: `if (active) filtered = filtered.filter(p)`. */
  function Stage(s: seq<ContentCard>, active: bool, p: ContentCard -> bool): (r: seq<ContentCard>)
    ensures IsSubsequence(r, s)
    ensures forall c :: multiset(r)[c] == if !active || p(c) then multiset(s)[c] else 0
  {
    if active then Filter(s, p)
    else
      SubsequenceReflexive(s);
      s
  }

  /** The search, then the category, tag and card-type filters, each applied
      only when active. */
  function FilteredContent(cards: seq<ContentCard>, query: string, f: ActiveFilters): (r: seq<ContentCard>)
    ensures IsSubsequence(r, cards)
    ensures forall c :: c in r <==> c in cards && Admitted(c, query, f)
    ensures forall c :: multiset(r)[c] == if Admitted(c, query, f) then multiset(cards)[c] else 0
  {
    var searched := Stage(cards, Trim(query) != [], (c: ContentCard) => MatchesSearch(c, query));
    var byCategory := Stage(searched, |f.categories| > 0, (c: ContentCard) => InCategories(c, f));
    var byTag := Stage(byCategory, |f.tags| > 0, (c: ContentCard) => InTags(c, f));
    var byType := Stage(byTag, |f.cardTypes| > 0, (c: ContentCard) => OfCardType(c, f));
    assert Trim(query) == [] <==> IsBlank(query);
    forall c ensures multiset(byType)[c] == if Admitted(c, query, f) then multiset(cards)[c] else 0 {
    }
    forall c ensures c in byType <==> c in cards && Admitted(c, query, f) {
      assert c in byType <==> multiset(byType)[c] > 0;
      assert c in cards <==> multiset(cards)[c] > 0;
    }
    SubsequenceTransitive(byCategory, searched, cards);
    SubsequenceTransitive(byTag, byCategory, cards);
    SubsequenceTransitive(byType, byTag, cards);
    byType
  }

  /** With a blank search and no filter selected, every card is listed. */
  lemma NothingActiveListsAll(cards: seq<ContentCard>, query: string)
    requires IsBlank(query)
    ensures FilteredContent(cards, query, NoFilters) == cards
  {
  }

  predicate IsFeaturedPublished(c: ContentCard) {
    c.metadata.isFeatured && c.status == Published
  }

  /** The first five featured, published cards, in list order: a prefix of
      all such cards, five long unless there are fewer. */
  function FeaturedContent(cards: seq<ContentCard>): (r: seq<ContentCard>)
    ensures |r| == if |Filter(cards, IsFeaturedPublished)| < FeaturedLimit
      then |Filter(cards, IsFeaturedPublished)| else FeaturedLimit
    ensures r == Filter(cards, IsFeaturedPublished)[..|r|]
    ensures forall c :: c in r ==> IsFeaturedPublished(c)
    ensures IsSubsequence(r, cards)
    ensures |r| < FeaturedLimit ==> forall c :: c in cards && IsFeaturedPublished(c) ==> c in r
  {
    var eligible := Filter(cards, IsFeaturedPublished);
    TakeIsSubsequence(eligible, FeaturedLimit);
    SubsequenceTransitive(Take(eligible, FeaturedLimit), eligible, cards);
    Take(eligible, FeaturedLimit)
  }

  predicate SortedByDateDesc(s: seq<ContentCard>) {
    forall i, j :: 0 <= i < j < |s| ==> s[i].publishedAt >= s[j].publishedAt
  }

  /** Places `c` before the first card that is not later than it, so that
      among cards with the same date the earlier-listed one stays first. */
  function InsertByDate(c: ContentCard, s: seq<ContentCard>): (r: seq<ContentCard>)
    ensures multiset(r) == multiset(s) + multiset{c}
    decreases |s|
  {
    if s == [] || c.publishedAt >= s[0].publishedAt then
      [c] + s
    else
      assert s == [s[0]] + s[1..];
      [s[0]] + InsertByDate(c, s[1..])
  }

  /** A card no earlier than every card of a sorted list may lead it. */
  lemma PrependKeepsSorted(x: ContentCard, s: seq<ContentCard>)
    requires SortedByDateDesc(s)
    requires forall k :: 0 <= k < |s| ==> x.publishedAt >= s[k].publishedAt
    ensures SortedByDateDesc([x] + s)
  {
    var r := [x] + s;
    forall i, j | 0 <= i < j < |r| ensures r[i].publishedAt >= r[j].publishedAt {
      assert r[j] == s[j - 1];
      if i > 0 {
        assert r[i] == s[i - 1];
      }
    }
  }

  lemma {:induction false} InsertKeepsSorted(c: ContentCard, s: seq<ContentCard>)
    requires SortedByDateDesc(s)
    ensures SortedByDateDesc(InsertByDate(c, s))
    decreases |s|
  {
    if s == [] || c.publishedAt >= s[0].publishedAt {
      PrependKeepsSorted(c, s);
    } else {
      var rest := InsertByDate(c, s[1..]);
      InsertKeepsSorted(c, s[1..]);
      forall j | 0 <= j < |rest| ensures s[0].publishedAt >= rest[j].publishedAt {
        assert rest[j] in multiset(s[1..]) + multiset{c};
        if rest[j] != c {
          var k :| 0 <= k < |s[1..]| && s[1..][k] == rest[j];
          assert s[k + 1] == rest[j];
        }
      }
      PrependKeepsSorted(s[0], rest);
    }
  }

  /** `sort((a, b) => b.publishedAt - a.publishedAt)`: a stable sort, latest
      first. */
  function SortByDateDesc(s: seq<ContentCard>): (r: seq<ContentCard>)
    ensures multiset(r) == multiset(s)
    ensures SortedByDateDesc(r)
    decreases |s|
  {
    if s == [] then []
    else
      assert s == [s[0]] + s[1..];
      var rest := SortByDateDesc(s[1..]);
      InsertKeepsSorted(s[0], rest);
      InsertByDate(s[0], rest)
  }

  lemma SameMultisetSameMembers(a: seq<ContentCard>, b: seq<ContentCard>)
    requires multiset(a) == multiset(b)
    ensures forall x :: x in a <==> x in b
  {
    forall x ensures x in a <==> x in b {
      assert x in a <==> x in multiset(a);
      assert x in b <==> x in multiset(b);
    }
  }

  /** The first `n` of a list sorted latest-first are sorted, and every card
      left out is no later than any card kept. */
  lemma {:induction false} TakeSortedIsTop(s: seq<ContentCard>, n: nat)
    requires SortedByDateDesc(s)
    ensures SortedByDateDesc(Take(s, n))
    ensures forall x :: x in s ==>
      x in Take(s, n) || (|Take(s, n)| == n && forall i :: 0 <= i < n ==> Take(s, n)[i].publishedAt >= x.publishedAt)
  {
    var t := Take(s, n);
    forall x | x in s
      ensures x in t || (|t| == n && forall i :: 0 <= i < n ==> t[i].publishedAt >= x.publishedAt)
    {
      var k :| 0 <= k < |s| && s[k] == x;
      if k < |t| {
        assert t[k] == x;
      } else {
        assert |t| == n && t == s[..n];
      }
    }
  }

  predicate IsPublished(c: ContentCard) {
    c.status == Published
  }

  /** The ten latest published cards, latest first: drawn from the published
      cards without repetition, ten of them unless fewer are published. */
  function RecentContent(cards: seq<ContentCard>): (r: seq<ContentCard>)
    ensures |r| == if |Filter(cards, IsPublished)| < RecentLimit then |Filter(cards, IsPublished)| else RecentLimit
    ensures multiset(r) <= multiset(Filter(cards, IsPublished))
    ensures forall c :: c in r ==> c in cards && c.status == Published
    ensures SortedByDateDesc(r)
    ensures forall c :: c in cards && c.status == Published ==>
      c in r || (|r| == RecentLimit && forall i :: 0 <= i < |r| ==> r[i].publishedAt >= c.publishedAt)
  {
    var published := Filter(cards, IsPublished);
    var sorted := SortByDateDesc(published);
    TopOfPermutation(published, sorted, RecentLimit);
    Take(sorted, RecentLimit)
  }

  /** The first `n` of a latest-first permutation of `s` are drawn from `s`
      without repetition, are `n` long unless `s` is shorter, and leave out no
      card of `s` later than one they keep. */
  lemma TopOfPermutation(s: seq<ContentCard>, sorted: seq<ContentCard>, n: nat)
    requires multiset(sorted) == multiset(s) && SortedByDateDesc(sorted)
    ensures |Take(sorted, n)| == if |s| < n then |s| else n
    ensures multiset(Take(sorted, n)) <= multiset(s)
    ensures forall c :: c in Take(sorted, n) ==> c in s
    ensures SortedByDateDesc(Take(sorted, n))
    ensures forall c :: c in s ==>
      c in Take(sorted, n) || (|Take(sorted, n)| == n && forall i :: 0 <= i < n ==> Take(sorted, n)[i].publishedAt >= c.publishedAt)
  {
    assert |sorted| == |s| by {
      assert |multiset(sorted)| == |multiset(s)|;
    }
    SameMultisetSameMembers(sorted, s);
    TakeIsSubsequence(sorted, n);
    TakeSortedIsTop(sorted, n);
  }

  /** The store: the module-level state of the TypeScript store as fields. */
  class PortfolioStore {
    var bioClusterCards: seq<BioCard>
    var contentClusterCards: seq<ContentCard>
    var activeFilters: ActiveFilters
    var searchQuery: string

    constructor ()
      ensures bioClusterCards == [] && contentClusterCards == []
      ensures activeFilters == NoFilters && searchQuery == ""
    {
      bioClusterCards := [];
      contentClusterCards := [];
      activeFilters := NoFilters;
      searchQuery := "";
    }

    method SetSearchQuery(query: string)
      modifies this`searchQuery
      ensures searchQuery == query
    {
      searchQuery := query;
    }

    method AddCategoryFilter(categoryId: string)
      modifies this`activeFilters
      ensures activeFilters == old(activeFilters).(categories := AddUnique(old(activeFilters).categories, categoryId))
    {
      if categoryId !in activeFilters.categories {
        activeFilters := activeFilters.(categories := activeFilters.categories + [categoryId]);
      }
    }

    method RemoveCategoryFilter(categoryId: string)
      modifies this`activeFilters
      ensures activeFilters == old(activeFilters).(categories := RemoveAll(old(activeFilters).categories, categoryId))
    {
      activeFilters := activeFilters.(categories := RemoveAll(activeFilters.categories, categoryId));
    }

    method AddTagFilter(tagId: string)
      modifies this`activeFilters
      ensures activeFilters == old(activeFilters).(tags := AddUnique(old(activeFilters).tags, tagId))
    {
      if tagId !in activeFilters.tags {
        activeFilters := activeFilters.(tags := activeFilters.tags + [tagId]);
      }
    }

    method RemoveTagFilter(tagId: string)
      modifies this`activeFilters
      ensures activeFilters == old(activeFilters).(tags := RemoveAll(old(activeFilters).tags, tagId))
    {
      activeFilters := activeFilters.(tags := RemoveAll(activeFilters.tags, tagId));
    }

    method AddCardTypeFilter(cardType: string)
      modifies this`activeFilters
      ensures activeFilters == old(activeFilters).(cardTypes := AddUnique(old(activeFilters).cardTypes, cardType))
    {
      if cardType !in activeFilters.cardTypes {
        activeFilters := activeFilters.(cardTypes := activeFilters.cardTypes + [cardType]);
      }
    }

    method RemoveCardTypeFilter(cardType: string)
      modifies this`activeFilters
      ensures activeFilters == old(activeFilters).(cardTypes := RemoveAll(old(activeFilters).cardTypes, cardType))
    {
      activeFilters := activeFilters.(cardTypes := RemoveAll(activeFilters.cardTypes, cardType));
    }

    method ClearAllFilters()
      modifies this`activeFilters, this`searchQuery
      ensures activeFilters == NoFilters && searchQuery == ""
    {
      activeFilters := NoFilters;
      searchQuery := "";
    }

    /** Merges `u` into the first bio card of this type; nothing changes when
        there is none. */
    method UpdateBioClusterCard(cardType: string, u: BioCardUpdate)
      modifies this`bioClusterCards
      ensures |bioClusterCards| == |old(bioClusterCards)|
      ensures FindBioCard(old(bioClusterCards), cardType).None? ==> bioClusterCards == old(bioClusterCards)
      ensures FindBioCard(old(bioClusterCards), cardType).Some? ==>
        var i := FindBioCard(old(bioClusterCards), cardType).value;
        bioClusterCards == old(bioClusterCards)[i := ApplyBioUpdate(old(bioClusterCards)[i], u)]
    {
      var index := FindBioCard(bioClusterCards, cardType);
      if index.Some? {
        var i := index.value;
        bioClusterCards := bioClusterCards[i := ApplyBioUpdate(bioClusterCards[i], u)];
      }
    }

    method AddContentCard(card: ContentCard)
      modifies this`contentClusterCards
      ensures contentClusterCards == [card] + old(contentClusterCards)
    {
      contentClusterCards := [card] + contentClusterCards;
    }

    /** Merges `u` into the first content card with this id; nothing changes
        when there is none. */
    method UpdateContentCard(cardId: string, u: ContentCardUpdate)
      modifies this`contentClusterCards
      ensures |contentClusterCards| == |old(contentClusterCards)|
      ensures FindContentCard(old(contentClusterCards), cardId).None? ==> contentClusterCards == old(contentClusterCards)
      ensures FindContentCard(old(contentClusterCards), cardId).Some? ==>
        var i := FindContentCard(old(contentClusterCards), cardId).value;
        contentClusterCards == old(contentClusterCards)[i := ApplyContentUpdate(old(contentClusterCards)[i], u)]
    {
      var index := FindContentCard(contentClusterCards, cardId);
      if index.Some? {
        var i := index.value;
        contentClusterCards := contentClusterCards[i := ApplyContentUpdate(contentClusterCards[i], u)];
      }
    }

    method RemoveContentCard(cardId: string)
      modifies this`contentClusterCards
      ensures contentClusterCards == WithoutContentCard(old(contentClusterCards), cardId)
    {
      contentClusterCards := WithoutContentCard(contentClusterCards, cardId);
    }
  }

  /** `bioClusterCards.findIndex(card => card.cardType === cardType)`. */
  function FindBioCard(cards: seq<BioCard>, cardType: string): (r: Option<nat>)
    ensures r.Some? ==> r.value < |cards| && cards[r.value].cardType == cardType
    ensures r.Some? ==> forall j :: 0 <= j < r.value ==> cards[j].cardType != cardType
    ensures r.None? <==> forall c :: c in cards ==> c.cardType != cardType
  {
    FirstIndex(cards, (c: BioCard) => c.cardType == cardType)
  }

  /** `contentClusterCards.findIndex(card => card.id === cardId)`. */
  function FindContentCard(cards: seq<ContentCard>, cardId: string): (r: Option<nat>)
    ensures r.Some? ==> r.value < |cards| && cards[r.value].id == cardId
    ensures r.Some? ==> forall j :: 0 <= j < r.value ==> cards[j].id != cardId
    ensures r.None? <==> forall c :: c in cards ==> c.id != cardId
  {
    FirstIndex(cards, (c: ContentCard) => c.id == cardId)
  }

  /** `contentClusterCards.filter(card => card.id !== cardId)`. */
  function WithoutContentCard(cards: seq<ContentCard>, cardId: string): (r: seq<ContentCard>)
    ensures IsSubsequence(r, cards)
    ensures forall c :: c in r <==> c in cards && c.id != cardId
    ensures forall c :: multiset(r)[c] == if c.id != cardId then multiset(cards)[c] else 0
    ensures (forall c :: c in cards ==> c.id != cardId) ==> r == cards
  {
    var keep := (c: ContentCard) => c.id != cardId;
    if forall c :: c in cards ==> c.id != cardId then
      FilterKeepsAll(cards, keep);
      Filter(cards, keep)
    else
      Filter(cards, keep)
  }
}
