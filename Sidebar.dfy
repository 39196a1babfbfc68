/** The platform sidebar of components/editor/Sidebar.tsx: its own copy of the
    preset list, the search that narrows it, the highlighted button and the click
    that selects a preset. */
module Sidebar {
  import opened Catalog
  import opened AsciiText
  import opened EditorStore

  /** The list the sidebar renders, written out inline in the component. */
  const SidebarPlatforms: seq<PresetGroup> := [
    PresetGroup("Video & Streaming", [
      PresetEntry("YouTube Thumbnail", "1280x720", "16:9"),
      PresetEntry("Kick Cover", "1920x1080", "16:9"),
      PresetEntry("Rumble Thumbnail", "1280x720", "16:9"),
      PresetEntry("Vimeo Thumbnail", "1280x720", "16:9"),
      PresetEntry("Dailymotion Thumb", "1280x720", "16:9"),
      PresetEntry("Twitch Offline", "1920x1080", "16:9"),
      PresetEntry("Wistia Thumb", "1280x720", "16:9"),
      PresetEntry("Brightcove Poster", "1280x720", "16:9")
    ]),
    PresetGroup("Short-Form (9:16)", [
      PresetEntry("TikTok Video", "1080x1920", "9:16"),
      PresetEntry("IG Reel / Story", "1080x1920", "9:16"),
      PresetEntry("YouTube Shorts", "1080x1920", "9:16"),
      PresetEntry("Snapchat Story", "1080x1920", "9:16"),
      PresetEntry("Pinterest Pin", "1000x1500", "2:3"),
      PresetEntry("Idea Pin", "1080x1920", "9:16")
    ]),
    PresetGroup("Social Media", [
      PresetEntry("Instagram Square", "1080x1080", "1:1"),
      PresetEntry("Instagram Portrait", "1080x1350", "4:5"),
      PresetEntry("X / Twitter Post", "1200x675", "16:9"),
      PresetEntry("X Header", "1500x500", "3:1"),
      PresetEntry("Facebook Post", "1200x630", "1.91:1"),
      PresetEntry("Facebook Cover", "820x312", "2.63:1"),
      PresetEntry("LinkedIn Post", "1200x627", "1.91:1"),
      PresetEntry("Threads Post", "1080x1080", "1:1")
    ]),
    PresetGroup("Community", [
      PresetEntry("Discord Banner", "600x240", "2.5:1"),
      PresetEntry("Reddit Post", "1200x628", "1.91:1"),
      PresetEntry("Telegram Image", "1280x720", "16:9"),
      PresetEntry("WhatsApp Status", "1080x1920", "9:16")
    ]),
    PresetGroup("Publishing & Edu", [
      PresetEntry("Medium Standard", "1400x1400", "1:1"),
      PresetEntry("Medium Banner", "1400x400", "3.5:1"),
      PresetEntry("Substack Hero", "1456x819", "16:9"),
      PresetEntry("Udemy Course", "750x422", "16:9"),
      PresetEntry("Skillshare Class", "1280x720", "16:9"),
      PresetEntry("Gumroad Cover", "1280x720", "16:9")
    ]),
    PresetGroup("E-Commerce & Gaming", [
      PresetEntry("Shopify Hero", "1600x900", "16:9"),
      PresetEntry("Product Square", "1024x1024", "1:1"),
      PresetEntry("Etsy Listing", "2000x1500", "4:3"),
      PresetEntry("Roblox Thumbnail", "1280x720", "16:9"),
      PresetEntry("Steam Capsule", "616x353", "16:9"),
      PresetEntry("Patreon Post", "1600x400", "4:1")
    ]),
    PresetGroup("Professional", [
      PresetEntry("Upwork Project", "1000x750", "4:3"),
      PresetEntry("Fiverr Gig", "1280x769", "16:9"),
      PresetEntry("Fiverr Profile", "600x600", "1:1"),
      PresetEntry("Polywork", "1200x630", "1.91:1")
    ]),
    PresetGroup("News & Discovery", [
      PresetEntry("Google Discover", "1200x800", "3:2"),
      PresetEntry("Google News", "1200x675", "16:9")
    ]),
    PresetGroup("Other / Creative", [
      PresetEntry("Spotify Cover", "640x640", "1:1"),
      PresetEntry("Podcast Cover", "3000x3000", "1:1"),
      PresetEntry("SoundCloud Art", "1000x1000", "1:1"),
      PresetEntry("Dribbble Shot", "1600x1200", "4:3"),
      PresetEntry("Wattpad Cover", "512x800", "2:3")
    ])
  ]

  /** The sidebar's inline list is the catalog constant, group for group and entry for entry. */
  lemma SidebarListIsCatalog()
    ensures SidebarPlatforms == PlatformsData
  {
  }

  // ---- Order-keeping selection ----

  /** `xs` is `ys` with some elements left out and the rest kept in order. */
  predicate IsSubsequence<T(==)>(xs: seq<T>, ys: seq<T>)
    decreases |ys|
  {
    xs == [] ||
    (ys != [] && ((xs[0] == ys[0] && IsSubsequence(xs[1..], ys[1..])) || IsSubsequence(xs, ys[1..])))
  }

  /** `shown` is `groups` with some groups left out and some entries left out of the
      rest, with groups and entries in their original order. */
  predicate Narrows(shown: seq<PresetGroup>, groups: seq<PresetGroup>)
    decreases |groups|
  {
    shown == [] ||
    (groups != [] &&
      ((shown[0].category == groups[0].category && IsSubsequence(shown[0].types, groups[0].types)
        && Narrows(shown[1..], groups[1..]))
       || Narrows(shown, groups[1..])))
  }

  // ---- The search ----

  /** Whether a button survives the search: the lower-cased query occurs in the
      lower-cased label or in the lower-cased category of its group. */
  predicate Matches(category: string, e: PresetEntry, query: string)
  {
    Includes(Lower(e.sizeLabel), Lower(query)) || Includes(Lower(category), Lower(query))
  }

  /** The entries of one group that survive the search. They are exactly the
      matching ones, every copy of each, in their original order. */
  function FilterTypes(category: string, types: seq<PresetEntry>, query: string): (r: seq<PresetEntry>)
    ensures forall e :: e in r <==> e in types && Matches(category, e, query)
    ensures forall e :: multiset(r)[e] == if Matches(category, e, query) then multiset(types)[e] else 0
    ensures IsSubsequence(r, types)
  {
    if types == [] then []
    else
      var rest := FilterTypes(category, types[1..], query);
      assert forall e :: e in types <==> e == types[0] || e in types[1..];
      assert types == [types[0]] + types[1..];
      assert multiset(types) == multiset{types[0]} + multiset(types[1..]);
      if Matches(category, types[0], query) then
        assert ([types[0]] + rest)[1..] == rest;
        [types[0]] + rest
      else
        rest
  }

  /** The first step of the search: every group, its entries narrowed. */
  function NarrowGroups(groups: seq<PresetGroup>, query: string): seq<PresetGroup>
  {
    seq(|groups|, i requires 0 <= i < |groups| =>
      groups[i].(types := FilterTypes(groups[i].category, groups[i].types, query)))
  }

  /** The second step: drop the groups left without entries. */
  function DropEmpty(groups: seq<PresetGroup>): seq<PresetGroup>
  {
    if groups == [] then []
    else if |groups[0].types| > 0 then [groups[0]] + DropEmpty(groups[1..])
    else DropEmpty(groups[1..])
  }

  /** `filteredPlatforms`: the groups and buttons the sidebar shows for `query`. */
  function FilteredPlatforms(groups: seq<PresetGroup>, query: string): seq<PresetGroup>
  {
    DropEmpty(NarrowGroups(groups, query))
  }

  /** The "No platforms found." message is shown exactly when nothing survives. */
  predicate ShowsNoPlatformsMessage(groups: seq<PresetGroup>, query: string)
  {
    |FilteredPlatforms(groups, query)| == 0
  }

  /** The search handles the head group, then the others. */
  lemma FilteredCons(groups: seq<PresetGroup>, query: string)
    requires groups != []
    ensures var h := groups[0].(types := FilterTypes(groups[0].category, groups[0].types, query));
      FilteredPlatforms(groups, query)
        == (if |h.types| > 0 then [h] else []) + FilteredPlatforms(groups[1..], query)
  {
    var n := NarrowGroups(groups, query);
    assert n[1..] == NarrowGroups(groups[1..], query);
  }

  /** Every group the sidebar shows has at least one button, every shown button
      matches the query, and what is shown is the list narrowed in order. */
  lemma {:induction false} FilteredIsNarrowing(groups: seq<PresetGroup>, query: string)
    ensures forall g :: g in FilteredPlatforms(groups, query) ==>
      |g.types| > 0 && forall e :: e in g.types ==> Matches(g.category, e, query)
    ensures Narrows(FilteredPlatforms(groups, query), groups)
  {
    if groups != [] {
      FilteredCons(groups, query);
      FilteredIsNarrowing(groups[1..], query);
      var h := groups[0].(types := FilterTypes(groups[0].category, groups[0].types, query));
      var rest := FilteredPlatforms(groups[1..], query);
      assert IsSubsequence(h.types, groups[0].types);
      if |h.types| > 0 {
        var r := [h] + rest;
        assert r[0] == h && r[1..] == rest;
        assert Narrows(r, groups);
        assert forall g :: g in r <==> g == h || g in rest;
      } else {
        assert FilteredPlatforms(groups, query) == rest;
        assert Narrows(rest, groups);
      }
    }
  }

  /** A button with its group's category is listed somewhere in `groups`. */
  ghost predicate Shown(groups: seq<PresetGroup>, category: string, e: PresetEntry)
  {
    exists g :: g in groups && g.category == category && e in g.types
  }

  lemma ShownCons(g: PresetGroup, groups: seq<PresetGroup>, category: string, e: PresetEntry)
    ensures Shown([g] + groups, category, e) <==>
      (g.category == category && e in g.types) || Shown(groups, category, e)
  {
    assert forall h :: h in [g] + groups <==> h == g || h in groups;
  }

  /** The search shows a button exactly when the full list has it and it matches. */
  lemma {:induction false} FilteredShowsMatches(
    groups: seq<PresetGroup>, query: string, category: string, e: PresetEntry)
    ensures Shown(FilteredPlatforms(groups, query), category, e)
      <==> Shown(groups, category, e) && Matches(category, e, query)
  {
    if groups != [] {
      FilteredCons(groups, query);
      FilteredShowsMatches(groups[1..], query, category, e);
      var h := groups[0].(types := FilterTypes(groups[0].category, groups[0].types, query));
      var rest := FilteredPlatforms(groups[1..], query);
      ShownCons(groups[0], groups[1..], category, e);
      assert [groups[0]] + groups[1..] == groups;
      if |h.types| > 0 {
        ShownCons(h, rest, category, e);
      }
    }
  }

  /** "No platforms found." appears exactly when no button of the list matches. */
  lemma NoPlatformsFound(groups: seq<PresetGroup>, query: string)
    ensures ShowsNoPlatformsMessage(groups, query) <==>
      forall g, e :: g in groups && e in g.types ==> !Matches(g.category, e, query)
  {
    var r := FilteredPlatforms(groups, query);
    if r == [] {
      forall g, e | g in groups && e in g.types
        ensures !Matches(g.category, e, query)
      {
        FilteredShowsMatches(groups, query, g.category, e);
      }
    } else {
      FilteredIsNarrowing(groups, query);
      var e := r[0].types[0];
      FilteredShowsMatches(groups, query, r[0].category, e);
      assert Shown(r, r[0].category, e);
    }
  }

  /** A query found in a group's category keeps all of that group's entries. */
  lemma {:induction false} CategoryMatchKeepsAll(category: string, types: seq<PresetEntry>, query: string)
    requires Includes(Lower(category), Lower(query))
    ensures FilterTypes(category, types, query) == types
    decreases |types|
  {
    if types != [] {
      CategoryMatchKeepsAll(category, types[1..], query);
      assert [types[0]] + types[1..] == types;
    }
  }

  /** A non-empty group whose category contains the query is shown whole. */
  lemma {:induction false} CategoryMatchShowsGroup(groups: seq<PresetGroup>, query: string, g: PresetGroup)
    requires g in groups && |g.types| > 0 && Includes(Lower(g.category), Lower(query))
    ensures g in FilteredPlatforms(groups, query)
  {
    FilteredCons(groups, query);
    if groups[0] == g {
      CategoryMatchKeepsAll(g.category, g.types, query);
    } else {
      CategoryMatchShowsGroup(groups[1..], query, g);
    }
  }

  /** With an empty search box every group is shown with all of its entries. */
  lemma {:induction false} EmptyQueryShowsAll(groups: seq<PresetGroup>)
    requires forall g :: g in groups ==> |g.types| > 0
    ensures FilteredPlatforms(groups, "") == groups
  {
    if groups != [] {
      FilteredCons(groups, "");
      IncludesEmpty(Lower(groups[0].category));
      assert Lower("") == "";
      CategoryMatchKeepsAll(groups[0].category, groups[0].types, "");
      EmptyQueryShowsAll(groups[1..]);
      assert [groups[0]] + groups[1..] == groups;
    }
  }

  /** The sidebar starts out showing the whole catalog. */
  lemma EmptySearchShowsCatalog()
    ensures FilteredPlatforms(SidebarPlatforms, "") == PlatformsData
  {
    SidebarListIsCatalog();
    CatalogGroupsNonEmpty();
    EmptyQueryShowsAll(PlatformsData);
  }

  /** Queries that lower-case alike select the same entries of a group. */
  lemma {:induction false} FilterTypesCaseInsensitive(
    category: string, types: seq<PresetEntry>, q1: string, q2: string)
    requires Lower(q1) == Lower(q2)
    ensures FilterTypes(category, types, q1) == FilterTypes(category, types, q2)
    decreases |types|
  {
    if types != [] {
      FilterTypesCaseInsensitive(category, types[1..], q1, q2);
    }
  }

  /** The search ignores case: queries that lower-case alike show the same list,
      and in particular a query shows what its lower-cased form shows. */
  lemma SearchCaseInsensitive(groups: seq<PresetGroup>, q1: string, q2: string)
    requires Lower(q1) == Lower(q2)
    ensures FilteredPlatforms(groups, q1) == FilteredPlatforms(groups, q2)
    ensures FilteredPlatforms(groups, q1) == FilteredPlatforms(groups, Lower(q1))
  {
    LowerIdempotent(q1);
    forall i | 0 <= i < |groups|
      ensures NarrowGroups(groups, q1)[i] == NarrowGroups(groups, q2)[i]
      ensures NarrowGroups(groups, q1)[i] == NarrowGroups(groups, Lower(q1))[i]
    {
      FilterTypesCaseInsensitive(groups[i].category, groups[i].types, q1, q2);
      FilterTypesCaseInsensitive(groups[i].category, groups[i].types, q1, Lower(q1));
    }
    assert NarrowGroups(groups, q1) == NarrowGroups(groups, q2);
    assert NarrowGroups(groups, q1) == NarrowGroups(groups, Lower(q1));
  }

  // ---- The highlighted button and the click ----

  /** A button is highlighted when the store's platform is its group's category and
      the store's size label is its label. */
  predicate IsActive(s: EditorState, category: string, e: PresetEntry)
  {
    s.selectedPlatform == category && s.selectedSizeLabel == e.sizeLabel
  }

  /** At most one button of the sidebar is highlighted, whatever the store holds. */
  lemma ActiveEntryUnique(s: EditorState, g1: PresetGroup, e1: PresetEntry, g2: PresetGroup, e2: PresetEntry)
    requires g1 in SidebarPlatforms && e1 in g1.types && g2 in SidebarPlatforms && e2 in g2.types
    requires IsActive(s, g1.category, e1) && IsActive(s, g2.category, e2)
    ensures g1 == g2 && e1 == e2
  {
    SidebarListIsCatalog();
    AllEntriesMembership(PlatformsData, e1);
    AllEntriesMembership(PlatformsData, e2);
    CatalogLabelsDistinct();
    LabelDetermines(AllEntries(PlatformsData), e1, e2);
    CatalogCategoriesDistinct();
    CategoryDetermines(PlatformsData, g1, g2);
  }

  /** Clicking a button highlights that button and no other. */
  lemma ClickSelectsExactly(s: EditorState, g: PresetGroup, e: PresetEntry, g': PresetGroup, e': PresetEntry)
    requires g in SidebarPlatforms && e in g.types && g' in SidebarPlatforms && e' in g'.types
    ensures IsActive(Apply(s, SetSize(g.category, e.ratio, e.sizeLabel)), g'.category, e')
      <==> g' == g && e' == e
  {
    var t := Apply(s, SetSize(g.category, e.ratio, e.sizeLabel));
    if IsActive(t, g'.category, e') {
      ActiveEntryUnique(t, g, e, g', e');
    }
  }

  /** In the initial state no button is highlighted: the initial platform "YouTube"
      is not one of the sidebar's categories. */
  lemma InitialNothingActive(g: PresetGroup, e: PresetEntry)
    requires g in SidebarPlatforms && e in g.types
    ensures !IsActive(Initial, g.category, e)
  {
    SidebarListIsCatalog();
    CatalogCategories();
    var i :| 0 <= i < |PlatformsData| && PlatformsData[i] == g;
    assert g.category == CategoryNames[i];
  }

  /** The button's click handler: `setSize(category, ratio, label)`. */
  method ClickPreset(store: Store, g: PresetGroup, e: PresetEntry)
    modifies store
    ensures store.Snapshot() == Apply(old(store.Snapshot()), SetSize(g.category, e.ratio, e.sizeLabel))
    ensures IsActive(store.Snapshot(), g.category, e)
  {
    store.SetSize(g.category, e.ratio, e.sizeLabel);
  }
}
