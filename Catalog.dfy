/** The preset catalog of lib/constants.ts: an ordered list of groups, each with
    a category name and an ordered list of size presets. The icon and colour tags
    of each group are presentation only and are not modelled. */
module Catalog {

  /** One selectable preset. `sizeLabel` is the source's `label` (a Dafny keyword);
      `size` is the "<width>x<height>" display string; `ratio` is a free-form ratio
      token, wider than the store's `AspectRatio` union ("4:3", "3:2", "2.5:1"). */
  datatype PresetEntry = PresetEntry(sizeLabel: string, size: string, ratio: string)

  /** A group of presets under one category heading. */
  datatype PresetGroup = PresetGroup(category: string, types: seq<PresetEntry>)

  /** PLATFORMS_DATA (lib/constants.ts), without icons and colours. */
  const PlatformsData: seq<PresetGroup> := [
    VideoStreaming,
    ShortForm,
    SocialMedia,
    Community,
    PublishingEdu,
    ECommerceGaming,
    Professional,
    NewsDiscovery,
    OtherCreative
  ]

  const VideoStreaming := PresetGroup("Video & Streaming", [
    PresetEntry("YouTube Thumbnail", "1280x720", "16:9"),
    PresetEntry("Kick Cover", "1920x1080", "16:9"),
    PresetEntry("Rumble Thumbnail", "1280x720", "16:9"),
    PresetEntry("Vimeo Thumbnail", "1280x720", "16:9"),
    PresetEntry("Dailymotion Thumb", "1280x720", "16:9"),
    PresetEntry("Twitch Offline", "1920x1080", "16:9"),
    PresetEntry("Wistia Thumb", "1280x720", "16:9"),
    PresetEntry("Brightcove Poster", "1280x720", "16:9")
  ])

  const ShortForm := PresetGroup("Short-Form (9:16)", [
    PresetEntry("TikTok Video", "1080x1920", "9:16"),
    PresetEntry("IG Reel / Story", "1080x1920", "9:16"),
    PresetEntry("YouTube Shorts", "1080x1920", "9:16"),
    PresetEntry("Snapchat Story", "1080x1920", "9:16"),
    PresetEntry("Pinterest Pin", "1000x1500", "2:3"),
    PresetEntry("Idea Pin", "1080x1920", "9:16")
  ])

  const SocialMedia := PresetGroup("Social Media", [
    PresetEntry("Instagram Square", "1080x1080", "1:1"),
    PresetEntry("Instagram Portrait", "1080x1350", "4:5"),
    PresetEntry("X / Twitter Post", "1200x675", "16:9"),
    PresetEntry("X Header", "1500x500", "3:1"),
    PresetEntry("Facebook Post", "1200x630", "1.91:1"),
    PresetEntry("Facebook Cover", "820x312", "2.63:1"),
    PresetEntry("LinkedIn Post", "1200x627", "1.91:1"),
    PresetEntry("Threads Post", "1080x1080", "1:1")
  ])

  const Community := PresetGroup("Community", [
    PresetEntry("Discord Banner", "600x240", "2.5:1"),
    PresetEntry("Reddit Post", "1200x628", "1.91:1"),
    PresetEntry("Telegram Image", "1280x720", "16:9"),
    PresetEntry("WhatsApp Status", "1080x1920", "9:16")
  ])

  const PublishingEdu := PresetGroup("Publishing & Edu", [
    PresetEntry("Medium Standard", "1400x1400", "1:1"),
    PresetEntry("Medium Banner", "1400x400", "3.5:1"),
    PresetEntry("Substack Hero", "1456x819", "16:9"),
    PresetEntry("Udemy Course", "750x422", "16:9"),
    PresetEntry("Skillshare Class", "1280x720", "16:9"),
    PresetEntry("Gumroad Cover", "1280x720", "16:9")
  ])

  const ECommerceGaming := PresetGroup("E-Commerce & Gaming", [
    PresetEntry("Shopify Hero", "1600x900", "16:9"),
    PresetEntry("Product Square", "1024x1024", "1:1"),
    PresetEntry("Etsy Listing", "2000x1500", "4:3"),
    PresetEntry("Roblox Thumbnail", "1280x720", "16:9"),
    PresetEntry("Steam Capsule", "616x353", "16:9"),
    PresetEntry("Patreon Post", "1600x400", "4:1")
  ])

  const Professional := PresetGroup("Professional", [
    PresetEntry("Upwork Project", "1000x750", "4:3"),
    PresetEntry("Fiverr Gig", "1280x769", "16:9"),
    PresetEntry("Fiverr Profile", "600x600", "1:1"),
    PresetEntry("Polywork", "1200x630", "1.91:1")
  ])

  const NewsDiscovery := PresetGroup("News & Discovery", [
    PresetEntry("Google Discover", "1200x800", "3:2"),
    PresetEntry("Google News", "1200x675", "16:9")
  ])

  const OtherCreative := PresetGroup("Other / Creative", [
    PresetEntry("Spotify Cover", "640x640", "1:1"),
    PresetEntry("Podcast Cover", "3000x3000", "1:1"),
    PresetEntry("SoundCloud Art", "1000x1000", "1:1"),
    PresetEntry("Dribbble Shot", "1600x1200", "4:3"),
    PresetEntry("Wattpad Cover", "512x800", "2:3")
  ])

  /** The categories of `groups`, in order. */
  function Categories(groups: seq<PresetGroup>): seq<string>
  {
    seq(|groups|, i requires 0 <= i < |groups| => groups[i].category)
  }

  /** Every entry of `groups`, in group order and then in order within each group. */
  function AllEntries(groups: seq<PresetGroup>): seq<PresetEntry>
  {
    if groups == [] then [] else groups[0].types + AllEntries(groups[1..])
  }

  /** An entry is listed by the flattening exactly when some group lists it. */
  lemma {:induction false} AllEntriesMembership(groups: seq<PresetGroup>, e: PresetEntry)
    ensures e in AllEntries(groups) <==> exists g :: g in groups && e in g.types
  {
    if groups != [] {
      AllEntriesMembership(groups[1..], e);
      assert forall g :: g in groups <==> g == groups[0] || g in groups[1..];
    }
  }

  /** Group categories are pairwise distinct (the sidebar keys its headings by them). */
  predicate CategoriesDistinct(groups: seq<PresetGroup>)
  {
    Distinct(Categories(groups))
  }

  /** Strings pairwise distinct. */
  predicate Distinct(s: seq<string>)
  {
    forall i, j :: 0 <= i < j < |s| ==> s[i] != s[j]
  }

  /** Entry labels are pairwise distinct (the sidebar keys its buttons by them). */
  predicate LabelsDistinct(es: seq<PresetEntry>)
  {
    forall i, j :: 0 <= i < j < |es| ==> es[i].sizeLabel != es[j].sizeLabel
  }

  /** In a list with distinct labels, the label picks out the entry. */
  lemma LabelDetermines(es: seq<PresetEntry>, e1: PresetEntry, e2: PresetEntry)
    requires LabelsDistinct(es) && e1 in es && e2 in es && e1.sizeLabel == e2.sizeLabel
    ensures e1 == e2
  {
    var i :| 0 <= i < |es| && es[i] == e1;
    var j :| 0 <= j < |es| && es[j] == e2;
    assert !(i < j) && !(j < i);
  }

  /** In a list with distinct categories, the category picks out the group. */
  lemma CategoryDetermines(groups: seq<PresetGroup>, g1: PresetGroup, g2: PresetGroup)
    requires CategoriesDistinct(groups) && g1 in groups && g2 in groups && g1.category == g2.category
    ensures g1 == g2
  {
    var i :| 0 <= i < |groups| && groups[i] == g1;
    var j :| 0 <= j < |groups| && groups[j] == g2;
    assert Categories(groups)[i] == Categories(groups)[j];
  }

  // ---- Size strings: "<digits>x<digits>", both numbers positive ----

  predicate IsDigit(c: char) { '0' <= c <= '9' }

  predicate IsNonZeroDigit(c: char) { '1' <= c <= '9' }

  /** A non-empty run of decimal digits. */
  predicate IsNumeral(s: string)
  {
    |s| > 0 && forall i :: 0 <= i < |s| ==> IsDigit(s[i])
  }

  function DigitValue(c: char): nat
    requires IsDigit(c)
  {
    c as int - '0' as int
  }

  /** The value of a run of decimal digits, read left to right. */
  function NumeralValue(s: string): nat
    requires forall i :: 0 <= i < |s| ==> IsDigit(s[i])
  {
    if s == [] then 0 else 10 * NumeralValue(s[..|s| - 1]) + DigitValue(s[|s| - 1])
  }

  /** A numeral whose first digit is not 0 denotes a positive number. */
  lemma {:induction false} NonZeroLeadPositive(s: string)
    requires IsNumeral(s) && IsNonZeroDigit(s[0])
    ensures NumeralValue(s) > 0
  {
    if |s| > 1 {
      NonZeroLeadPositive(s[..|s| - 1]);
    }
  }

  /** `s` reads as "<width>x<height>" with both numbers positive. */
  ghost predicate IsSizeString(s: string)
  {
    exists k :: 0 <= k < |s| && s[k] == 'x'
      && IsNumeral(s[..k]) && NumeralValue(s[..k]) > 0
      && IsNumeral(s[k + 1..]) && NumeralValue(s[k + 1..]) > 0
  }

  /** A left-to-right scan of a size string from position `i` in phase `phase`:
      0 before the width, 1 inside the width, 2 before the height, 3 inside the height.
      A number must start with a digit other than 0. */
  predicate SizeScan(s: string, i: nat, phase: nat)
    requires i <= |s|
    decreases |s| - i
  {
    if i == |s| then phase == 3
    else if phase == 0 then '1' <= s[i] <= '9' && SizeScan(s, i + 1, 1)
    else if phase == 1 then ('0' <= s[i] <= '9' && SizeScan(s, i + 1, 1)) || (s[i] == 'x' && SizeScan(s, i + 1, 2))
    else if phase == 2 then '1' <= s[i] <= '9' && SizeScan(s, i + 1, 3)
    else '0' <= s[i] <= '9' && SizeScan(s, i + 1, 3)
  }

  /** Whatever remains once the scan is inside the height is digits. */
  lemma {:induction false} ScanHeightDigits(s: string, i: nat)
    requires i <= |s| && SizeScan(s, i, 3)
    ensures forall j :: i <= j < |s| ==> IsDigit(s[j])
    decreases |s| - i
  {
    if i < |s| {
      ScanHeightDigits(s, i + 1);
    }
  }

  /** Inside the width, the scan meets an 'x' at some `k`, with digits before it. */
  lemma {:induction false} ScanWidthSplit(s: string, i: nat) returns (k: nat)
    requires i <= |s| && SizeScan(s, i, 1)
    ensures i <= k < |s| && s[k] == 'x' && SizeScan(s, k + 1, 2)
    ensures forall j :: i <= j < k ==> IsDigit(s[j])
    decreases |s| - i
  {
    if s[i] == 'x' && SizeScan(s, i + 1, 2) {
      k := i;
    } else {
      k := ScanWidthSplit(s, i + 1);
    }
  }

  /** A size string accepted by the scan has the "<width>x<height>" shape. */
  lemma SizeScanSound(s: string)
    requires SizeScan(s, 0, 0)
    ensures IsSizeString(s)
  {
    var k := ScanWidthSplit(s, 1);
    ScanHeightDigits(s, k + 2);
    var w, h := s[..k], s[k + 1..];
    assert IsNumeral(w) && w[0] == s[0];
    assert IsNumeral(h) && h[0] == s[k + 1];
    NonZeroLeadPositive(w);
    NonZeroLeadPositive(h);
  }

  /** Every size of `es` from position `i` on passes the scan. */
  predicate SizesScanFrom(es: seq<PresetEntry>, i: nat)
    requires i <= |es|
    decreases |es| - i
  {
    i == |es| || (SizeScan(es[i].size, 0, 0) && SizesScanFrom(es, i + 1))
  }

  lemma {:induction false} SizesScanFromAll(es: seq<PresetEntry>, i: nat)
    requires i <= |es| && SizesScanFrom(es, i)
    ensures forall j :: i <= j < |es| ==> SizeScan(es[j].size, 0, 0)
    decreases |es| - i
  {
    if i < |es| {
      SizesScanFromAll(es, i + 1);
    }
  }

  // ---- Well-formedness of PLATFORMS_DATA ----

  /** The nine category names, in order. This list is a proof aid, not a second
      source of truth: `CatalogCategories` proves it equal to `Categories(PlatformsData)`,
      and the solver checks distinctness faster on it than through the groups. */
  const CategoryNames: seq<string> := ["Video & Streaming", "Short-Form (9:16)", "Social Media",
    "Community", "Publishing & Edu", "E-Commerce & Gaming", "Professional", "News & Discovery",
    "Other / Creative"]

  lemma CatalogCategories()
    ensures Categories(PlatformsData) == CategoryNames
  {
  }

  lemma CategoryNamesDistinct()
    ensures Distinct(CategoryNames)
  {
  }

  lemma CatalogCategoriesDistinct()
    ensures CategoriesDistinct(PlatformsData)
  {
    CatalogCategories();
    CategoryNamesDistinct();
  }

  /** Every group has at least one entry; 49 entries in all. */
  lemma CatalogGroupsNonEmpty()
    ensures forall g :: g in PlatformsData ==> |g.types| > 0
    ensures |AllEntries(PlatformsData)| == 49
  {
    CatalogFlattened();
  }

  /** Flattening distributes over concatenation of group lists. */
  lemma {:induction false} AllEntriesAppend(a: seq<PresetGroup>, b: seq<PresetGroup>)
    ensures AllEntries(a + b) == AllEntries(a) + AllEntries(b)
  {
    if a == [] {
      assert a + b == b;
    } else {
      calc {
        AllEntries(a + b);
        (a + b)[0].types + AllEntries((a + b)[1..]);
        { assert (a + b)[0] == a[0] && (a + b)[1..] == a[1..] + b; }
        a[0].types + AllEntries(a[1..] + b);
        { AllEntriesAppend(a[1..], b); }
        a[0].types + (AllEntries(a[1..]) + AllEntries(b));
      }
    }
  }

  lemma FlattenOne(g: PresetGroup)
    ensures AllEntries([g]) == g.types
  {
    assert [g][1..] == [];
  }

  // The catalog is handled in four stretches of consecutive groups, small enough for the solver.
  const StretchA := VideoStreaming.types + ShortForm.types
  const StretchB := SocialMedia.types + Community.types
  const StretchC := PublishingEdu.types + ECommerceGaming.types
  const StretchD := Professional.types + NewsDiscovery.types + OtherCreative.types

  lemma FlattenPair(g: PresetGroup, h: PresetGroup)
    ensures AllEntries([g, h]) == g.types + h.types
  {
    assert [g, h] == [g] + [h];
    AllEntriesAppend([g], [h]);
    FlattenOne(g);
    FlattenOne(h);
  }

  lemma FlattenTriple(g: PresetGroup, h: PresetGroup, k: PresetGroup)
    ensures AllEntries([g, h, k]) == g.types + h.types + k.types
  {
    assert [g, h, k] == [g, h] + [k];
    AllEntriesAppend([g, h], [k]);
    FlattenPair(g, h);
    FlattenOne(k);
  }

  /** The flattening of the catalog, stretch by stretch. */
  lemma CatalogFlattened()
    ensures AllEntries(PlatformsData) == StretchA + StretchB + StretchC + StretchD
  {
    var a, b := [VideoStreaming, ShortForm], [SocialMedia, Community];
    var c, d := [PublishingEdu, ECommerceGaming], [Professional, NewsDiscovery, OtherCreative];
    assert PlatformsData == a + b + c + d;
    AllEntriesAppend(a + b + c, d);
    AllEntriesAppend(a + b, c);
    AllEntriesAppend(a, b);
    FlattenPair(VideoStreaming, ShortForm);
    FlattenPair(SocialMedia, Community);
    FlattenPair(PublishingEdu, ECommerceGaming);
    FlattenTriple(Professional, NewsDiscovery, OtherCreative);
  }

  /** The labels of `es`, in order. */
  function LabelsOf(es: seq<PresetEntry>): seq<string>
  {
    seq(|es|, i requires 0 <= i < |es| => es[i].sizeLabel)
  }

  /** No string of `a` is a string of `b`. */
  predicate Disjoint(a: seq<string>, b: seq<string>)
  {
    forall i, j :: 0 <= i < |a| && 0 <= j < |b| ==> a[i] != b[j]
  }

  lemma DistinctAppend(a: seq<string>, b: seq<string>)
    requires Distinct(a) && Distinct(b) && Disjoint(a, b)
    ensures Distinct(a + b)
  {
    forall i, j | 0 <= i < j < |a + b|
      ensures (a + b)[i] != (a + b)[j]
    {
      if j < |a| {
      } else if i < |a| {
        assert (a + b)[j] == b[j - |a|];
      } else {
        assert (a + b)[i] == b[i - |a|] && (a + b)[j] == b[j - |a|];
      }
    }
  }

  lemma DisjointAppend(a: seq<string>, b: seq<string>, c: seq<string>)
    requires Disjoint(a, c) && Disjoint(b, c)
    ensures Disjoint(a + b, c)
  {
    forall i, j | 0 <= i < |a + b| && 0 <= j < |c|
      ensures (a + b)[i] != c[j]
    {
      if i >= |a| {
        assert (a + b)[i] == b[i - |a|];
      }
    }
  }

  /** The labels of the four stretches, written out as proof aids:
      `StretchALabels` .. `StretchDLabels` prove each equal to `LabelsOf` of its
      stretch, and distinctness is checked on these short literal lists. */
  const LabelsA: seq<string> := [
    "YouTube Thumbnail", "Kick Cover", "Rumble Thumbnail", "Vimeo Thumbnail",
    "Dailymotion Thumb", "Twitch Offline", "Wistia Thumb", "Brightcove Poster",
    "TikTok Video", "IG Reel / Story", "YouTube Shorts", "Snapchat Story", "Pinterest Pin",
    "Idea Pin"
  ]
  const LabelsB: seq<string> := [
    "Instagram Square", "Instagram Portrait", "X / Twitter Post", "X Header",
    "Facebook Post", "Facebook Cover", "LinkedIn Post", "Threads Post", "Discord Banner",
    "Reddit Post", "Telegram Image", "WhatsApp Status"
  ]
  const LabelsC: seq<string> := [
    "Medium Standard", "Medium Banner", "Substack Hero", "Udemy Course",
    "Skillshare Class", "Gumroad Cover", "Shopify Hero", "Product Square", "Etsy Listing",
    "Roblox Thumbnail", "Steam Capsule", "Patreon Post"
  ]
  const LabelsD: seq<string> := [
    "Upwork Project", "Fiverr Gig", "Fiverr Profile", "Polywork", "Google Discover",
    "Google News", "Spotify Cover", "Podcast Cover", "SoundCloud Art", "Dribbble Shot",
    "Wattpad Cover"
  ]

  lemma StretchALabels() ensures LabelsOf(StretchA) == LabelsA {}
  lemma StretchBLabels() ensures LabelsOf(StretchB) == LabelsB {}
  lemma StretchCLabels() ensures LabelsOf(StretchC) == LabelsC {}
  lemma StretchDLabels() ensures LabelsOf(StretchD) == LabelsD {}

  lemma LabelsADistinct() ensures Distinct(LabelsA) {}
  lemma LabelsBDistinct() ensures Distinct(LabelsB) {}
  lemma LabelsCDistinct() ensures Distinct(LabelsC) {}
  lemma LabelsDDistinct() ensures Distinct(LabelsD) {}
  lemma LabelsABDisjoint() ensures Disjoint(LabelsA, LabelsB) {}
  lemma LabelsACDisjoint() ensures Disjoint(LabelsA, LabelsC) {}
  lemma LabelsADDisjoint() ensures Disjoint(LabelsA, LabelsD) {}
  lemma LabelsBCDisjoint() ensures Disjoint(LabelsB, LabelsC) {}
  lemma LabelsBDDisjoint() ensures Disjoint(LabelsB, LabelsD) {}
  lemma LabelsCDDisjoint() ensures Disjoint(LabelsC, LabelsD) {}

  lemma LabelsOfAppend(a: seq<PresetEntry>, b: seq<PresetEntry>)
    ensures LabelsOf(a + b) == LabelsOf(a) + LabelsOf(b)
  {
  }

  /** The catalog's labels, in order, are pairwise distinct. */
  lemma AllLabelsDistinct()
    ensures Distinct(LabelsA + LabelsB + LabelsC + LabelsD)
  {
    LabelsADistinct(); LabelsBDistinct(); LabelsCDistinct(); LabelsDDistinct();
    LabelsABDisjoint(); LabelsACDisjoint(); LabelsADDisjoint();
    LabelsBCDisjoint(); LabelsBDDisjoint(); LabelsCDDisjoint();
    DistinctAppend(LabelsA, LabelsB);
    DisjointAppend(LabelsA, LabelsB, LabelsC);
    DistinctAppend(LabelsA + LabelsB, LabelsC);
    DisjointAppend(LabelsA, LabelsB, LabelsD);
    DisjointAppend(LabelsA + LabelsB, LabelsC, LabelsD);
    DistinctAppend(LabelsA + LabelsB + LabelsC, LabelsD);
  }

  /** The catalog's labels, in order. */
  lemma CatalogLabels()
    ensures LabelsOf(AllEntries(PlatformsData)) == LabelsA + LabelsB + LabelsC + LabelsD
  {
    CatalogFlattened();
    LabelsOfAppend(StretchA, StretchB);
    LabelsOfAppend(StretchA + StretchB, StretchC);
    LabelsOfAppend(StretchA + StretchB + StretchC, StretchD);
    StretchALabels(); StretchBLabels(); StretchCLabels(); StretchDLabels();
  }

  /** No two entries of the whole catalog share a label. */
  lemma CatalogLabelsDistinct()
    ensures LabelsDistinct(AllEntries(PlatformsData))
  {
    CatalogLabels();
    AllLabelsDistinct();
    var es := AllEntries(PlatformsData);
    assert forall i :: 0 <= i < |es| ==> LabelsOf(es)[i] == es[i].sizeLabel;
  }

  lemma VideoStreamingSizes() ensures SizesScanFrom(VideoStreaming.types, 0) {}
  lemma ShortFormSizes() ensures SizesScanFrom(ShortForm.types, 0) {}
  lemma SocialMediaSizes() ensures SizesScanFrom(SocialMedia.types, 0) {}
  lemma CommunitySizes() ensures SizesScanFrom(Community.types, 0) {}
  lemma PublishingEduSizes() ensures SizesScanFrom(PublishingEdu.types, 0) {}
  lemma ECommerceGamingSizes() ensures SizesScanFrom(ECommerceGaming.types, 0) {}
  lemma ProfessionalSizes() ensures SizesScanFrom(Professional.types, 0) {}
  lemma NewsDiscoverySizes() ensures SizesScanFrom(NewsDiscovery.types, 0) {}
  lemma OtherCreativeSizes() ensures SizesScanFrom(OtherCreative.types, 0) {}

  /** Every size string of one catalog group passes the scan. */
  lemma GroupSizesScan(g: PresetGroup)
    requires g in PlatformsData
    ensures forall j :: 0 <= j < |g.types| ==> SizeScan(g.types[j].size, 0, 0)
  {
    if g == VideoStreaming {
      VideoStreamingSizes();
    } else if g == ShortForm {
      ShortFormSizes();
    } else if g == SocialMedia {
      SocialMediaSizes();
    } else if g == Community {
      CommunitySizes();
    } else if g == PublishingEdu {
      PublishingEduSizes();
    } else if g == ECommerceGaming {
      ECommerceGamingSizes();
    } else if g == Professional {
      ProfessionalSizes();
    } else if g == NewsDiscovery {
      NewsDiscoverySizes();
    } else {
      OtherCreativeSizes();
    }
    SizesScanFromAll(g.types, 0);
  }

  /** Every size string of the catalog is "<width>x<height>" with positive numbers. */
  lemma CatalogSizesWellFormed()
    ensures forall e :: e in AllEntries(PlatformsData) ==> IsSizeString(e.size)
  {
    forall e | e in AllEntries(PlatformsData) ensures IsSizeString(e.size) {
      AllEntriesMembership(PlatformsData, e);
      var g :| g in PlatformsData && e in g.types;
      GroupSizesScan(g);
      var j :| 0 <= j < |g.types| && g.types[j] == e;
      SizeScanSound(e.size);
    }
  }
}
