/**
  The tech-stack section of the portfolio page (components/techstack.tsx).

  A fixed list of technologies, each tagged with a category, is grouped into
  one list per category. Every category becomes a horizontally scrolling
  ticker: the ticker shows its items twice in a row and slides left (or, for
  the second category, right) by the width of one copy, so that the loop
  restarts on an identical picture.
 */
module TechStack {

  datatype TechItem = TechItem(name: string, category: string)

  /** The technologies shown, in the order they are listed. */
  function TechStackItems(): (r: seq<TechItem>)
    ensures |r| == 18
  {
    [ TechItem("React", "Frontend"),
      TechItem("Next.js", "Frontend"),
      TechItem("TypeScript", "Frontend"),
      TechItem("TailwindCSS", "Frontend"),
      TechItem("HTML | CSS", "Frontend"),
      TechItem("C++", "Backend"),
      TechItem("C", "Backend"),
      TechItem("C#", "Backend"),
      TechItem("Python", "Backend"),
      TechItem("JavaScript", "Backend"),
      TechItem("Tensorflow", "Backend"),
      TechItem("NumPy", "Backend"),
      TechItem("Matplotlib", "Backend"),
      TechItem("Figma", "Tools"),
      TechItem("FreeRTOS", "Tools"),
      TechItem("I2C", "Tools"),
      TechItem("SPI", "Tools"),
      TechItem("CMake", "Tools") ]
  }

  // ---------------------------------------------------------------------------
  // Reference definitions of the grouping
  // ---------------------------------------------------------------------------

  /** The distinct categories of `items`, in order of first appearance. */
  function Categories(items: seq<TechItem>): seq<string>
  {
    if items == [] then []
    else
      var keys := Categories(items[..|items| - 1]);
      var c := items[|items| - 1].category;
      if c in keys then keys else keys + [c]
  }

  /** The items of category `c`, in their original order. */
  function InCategory(items: seq<TechItem>, c: string): seq<TechItem>
  {
    if items == [] then []
    else
      var x := items[|items| - 1];
      InCategory(items[..|items| - 1], c) + (if x.category == c then [x] else [])
  }

  /** The position of the first item of category `c`, or |items| if there is none. */
  function FirstIndex(items: seq<TechItem>, c: string): nat
  {
    if items == [] then 0
    else
      var f := FirstIndex(items[..|items| - 1], c);
      if f < |items| - 1 then f
      else if items[|items| - 1].category == c then |items| - 1
      else |items|
  }

  /** The positions in `items` of the items of category `c`, in increasing order. */
  function Positions(items: seq<TechItem>, c: string): seq<nat>
  {
    if items == [] then []
    else
      var x := items[|items| - 1];
      Positions(items[..|items| - 1], c) + (if x.category == c then [|items| - 1] else [])
  }

  /** The number of items over all the groups named in `keys`. */
  function GroupSizes(keys: seq<string>, items: seq<TechItem>): nat
  {
    if keys == [] then 0
    else GroupSizes(keys[..|keys| - 1], items) + |InCategory(items, keys[|keys| - 1])|
  }

  ghost predicate Distinct<T>(s: seq<T>)
  {
    forall p, q :: 0 <= p < q < |s| ==> s[p] != s[q]
  }

  lemma CategoriesSnoc(items: seq<TechItem>, x: TechItem)
    ensures Categories(items + [x]) ==
      if x.category in Categories(items) then Categories(items) else Categories(items) + [x.category]
  {
    assert (items + [x])[..|items|] == items;
  }

  lemma InCategorySnoc(items: seq<TechItem>, x: TechItem, c: string)
    ensures InCategory(items + [x], c) == InCategory(items, c) + (if x.category == c then [x] else [])
  {
    assert (items + [x])[..|items|] == items;
  }

  lemma FirstIndexSnoc(items: seq<TechItem>, x: TechItem, c: string)
    ensures FirstIndex(items + [x], c) ==
      var f := FirstIndex(items, c);
      if f < |items| then f else if x.category == c then |items| else |items| + 1
  {
    assert (items + [x])[..|items|] == items;
  }

  // ---------------------------------------------------------------------------
  // Properties of the grouping
  // ---------------------------------------------------------------------------

  /** A category has a group iff some item carries it. */
  lemma {:induction false} CategoryPresent(items: seq<TechItem>, c: string)
    ensures c in Categories(items) <==> exists i :: 0 <= i < |items| && items[i].category == c
  {
    if items != [] {
      var p, x := items[..|items| - 1], items[|items| - 1];
      assert items == p + [x];
      CategoriesSnoc(p, x);
      CategoryPresent(p, c);
      if c in Categories(items) && c !in Categories(p) {
        assert items[|items| - 1].category == c;
      }
      if exists i :: 0 <= i < |items| && items[i].category == c {
        var i :| 0 <= i < |items| && items[i].category == c;
        if i < |p| {
          assert p[i].category == c;
        }
      }
    }
  }

  /** Each category has one group only: the keys hold no duplicates. */
  lemma {:induction false} CategoriesDistinct(items: seq<TechItem>)
    ensures Distinct(Categories(items))
  {
    if items != [] {
      var p, x := items[..|items| - 1], items[|items| - 1];
      assert items == p + [x];
      CategoriesSnoc(p, x);
      CategoriesDistinct(p);
    }
  }

  /** FirstIndex finds the first item of its category. */
  lemma {:induction false} FirstIndexIsFirst(items: seq<TechItem>, c: string)
    ensures FirstIndex(items, c) <= |items|
    ensures FirstIndex(items, c) < |items| ==> items[FirstIndex(items, c)].category == c
    ensures forall j :: 0 <= j < FirstIndex(items, c) && j < |items| ==> items[j].category != c
  {
    if items != [] {
      var p, x := items[..|items| - 1], items[|items| - 1];
      assert items == p + [x];
      FirstIndexSnoc(p, x, c);
      FirstIndexIsFirst(p, c);
    }
  }

  /** A category is known exactly when its first occurrence lies in the list. */
  lemma {:induction false} FirstIndexOfKnown(items: seq<TechItem>, c: string)
    ensures c in Categories(items) <==> FirstIndex(items, c) < |items|
  {
    if items != [] {
      var p, x := items[..|items| - 1], items[|items| - 1];
      assert items == p + [x];
      FirstIndexSnoc(p, x, c);
      CategoriesSnoc(p, x);
      FirstIndexOfKnown(p, c);
    }
  }

  /**
    Groups are created on the first occurrence of their category, so the keys
    are ordered by the position of that first occurrence.
   */
  lemma {:induction false} FirstAppearanceOrder(items: seq<TechItem>)
    ensures forall p, q :: 0 <= p < q < |Categories(items)| ==>
      FirstIndex(items, Categories(items)[p]) < FirstIndex(items, Categories(items)[q])
  {
    if items != [] {
      var pre, x := items[..|items| - 1], items[|items| - 1];
      assert items == pre + [x];
      CategoriesSnoc(pre, x);
      FirstAppearanceOrder(pre);
      var keys, keys' := Categories(pre), Categories(items);
      forall k | 0 <= k < |keys|
        ensures FirstIndex(items, keys[k]) == FirstIndex(pre, keys[k]) < |pre|
      {
        FirstIndexOfKnown(pre, keys[k]);
        FirstIndexSnoc(pre, x, keys[k]);
      }
      if x.category !in keys {
        FirstIndexOfKnown(pre, x.category);
        FirstIndexSnoc(pre, x, x.category);
        assert keys' == keys + [x.category];
        assert FirstIndex(items, keys'[|keys|]) == |pre|;
      }
    }
  }

  /** Every member of a group carries the group's category. */
  lemma {:induction false} InCategoryMembers(items: seq<TechItem>, c: string)
    ensures forall y :: y in InCategory(items, c) ==> y.category == c && y in items
  {
    if items != [] {
      var p, x := items[..|items| - 1], items[|items| - 1];
      assert items == p + [x];
      InCategorySnoc(p, x, c);
      InCategoryMembers(p, c);
    }
  }

  /** Every item is placed in the group named by its category. */
  lemma {:induction false} ItemInOwnGroup(items: seq<TechItem>, i: nat)
    requires i < |items|
    ensures items[i] in InCategory(items, items[i].category)
  {
    var p, x := items[..|items| - 1], items[|items| - 1];
    assert items == p + [x];
    InCategorySnoc(p, x, items[i].category);
    if i < |p| {
      ItemInOwnGroup(p, i);
      assert p[i] == items[i];
    }
  }

  /** Each item lands in the group of its own category and in no other. */
  lemma ItemInExactlyOneGroup(items: seq<TechItem>, i: nat, c: string)
    requires i < |items|
    ensures items[i] in InCategory(items, c) <==> c == items[i].category
  {
    ItemInOwnGroup(items, i);
    InCategoryMembers(items, c);
  }

  /** A category without items has an empty group. */
  lemma {:induction false} InCategoryOfUnknown(items: seq<TechItem>, c: string)
    requires c !in Categories(items)
    ensures InCategory(items, c) == []
  {
    if items != [] {
      var p, x := items[..|items| - 1], items[|items| - 1];
      assert items == p + [x];
      CategoriesSnoc(p, x);
      InCategorySnoc(p, x, c);
      InCategoryOfUnknown(p, c);
    }
  }

  /** Appending one item grows exactly the group of its category, by one. */
  lemma {:induction false} GroupSizesSnoc(keys: seq<string>, items: seq<TechItem>, x: TechItem)
    requires Distinct(keys)
    ensures GroupSizes(keys, items + [x]) == GroupSizes(keys, items) + (if x.category in keys then 1 else 0)
  {
    if keys != [] {
      var init, k := keys[..|keys| - 1], keys[|keys| - 1];
      assert keys == init + [k];
      GroupSizesSnoc(init, items, x);
      InCategorySnoc(items, x, k);
    }
  }

  /** The groups partition the list: their sizes add up to the number of items. */
  lemma {:induction false} GroupSizesSum(items: seq<TechItem>)
    ensures GroupSizes(Categories(items), items) == |items|
  {
    if items != [] {
      var p, x := items[..|items| - 1], items[|items| - 1];
      assert items == p + [x];
      var keys := Categories(p);
      CategoriesSnoc(p, x);
      CategoriesDistinct(p);
      GroupSizesSum(p);
      GroupSizesSnoc(keys, p, x);
      if x.category !in keys {
        var keys' := keys + [x.category];
        assert keys'[..|keys|] == keys;
        InCategoryOfUnknown(p, x.category);
        InCategorySnoc(p, x, x.category);
      }
    }
  }

  lemma PositionsSnoc(items: seq<TechItem>, x: TechItem, c: string)
    ensures Positions(items + [x], c) == Positions(items, c) + (if x.category == c then [|items|] else [])
  {
    assert (items + [x])[..|items|] == items;
  }

  /**
    Within a group, items keep the relative order they have in the list: the
    k-th member of the group is the item at the k-th of a strictly increasing
    run of positions.
   */
  lemma {:induction false} InCategoryKeepsOrder(items: seq<TechItem>, c: string)
    ensures |Positions(items, c)| == |InCategory(items, c)|
    ensures forall k :: 0 <= k < |Positions(items, c)| ==>
      Positions(items, c)[k] < |items| && items[Positions(items, c)[k]] == InCategory(items, c)[k]
    ensures forall k, l :: 0 <= k < l < |Positions(items, c)| ==> Positions(items, c)[k] < Positions(items, c)[l]
  {
    if items != [] {
      var p, x := items[..|items| - 1], items[|items| - 1];
      assert items == p + [x];
      InCategorySnoc(p, x, c);
      PositionsSnoc(p, x, c);
      InCategoryKeepsOrder(p, c);
    }
  }

  // ---------------------------------------------------------------------------
  // The grouping as the component computes it
  // ---------------------------------------------------------------------------

  /**
    A JavaScript object from category to item array: its keys, in the order
    they were created (the order `Object.entries` reports them in), and its
    key/value pairs.
   */
  datatype Record = Record(keys: seq<string>, entries: map<string, seq<TechItem>>)

  /**
    `groupedTechStack`: a reduce over the items that creates a category's
    array the first time the category is met and then pushes the item onto it.
   */
  method GroupByCategory(items: seq<TechItem>) returns (acc: Record)
    ensures acc.keys == Categories(items)
    ensures forall c :: c in acc.entries <==> c in acc.keys
    ensures forall c :: c in acc.entries ==> acc.entries[c] == InCategory(items, c)
  {
    acc := Record([], map[]);
    var i := 0;
    while i < |items|
      invariant 0 <= i <= |items|
      invariant acc.keys == Categories(items[..i])
      invariant forall c :: c in acc.entries <==> c in acc.keys
      invariant forall c :: c in acc.entries ==> acc.entries[c] == InCategory(items[..i], c)
    {
      var item := items[i];
      ghost var done := items[..i];
      assert items[..i + 1] == done + [item];
      CategoriesSnoc(done, item);
      forall c {
        InCategorySnoc(done, item, c);
      }
      if item.category !in acc.entries {
        InCategoryOfUnknown(done, item.category);
        acc := Record(acc.keys + [item.category], acc.entries[item.category := []]);
      }
      acc := acc.(entries := acc.entries[item.category := acc.entries[item.category] + [item]]);
      assert acc.keys == Categories(done + [item]);
      i := i + 1;
    }
    assert items[..i] == items;
  }

  /** `Object.entries`: the key/value pairs in key-creation order. */
  function Entries(r: Record): (e: seq<(string, seq<TechItem>)>)
    requires forall c :: c in r.keys ==> c in r.entries
    ensures |e| == |r.keys|
    ensures forall k :: 0 <= k < |e| ==> e[k].0 == r.keys[k] && e[k].1 == r.entries[r.keys[k]]
  {
    seq(|r.keys|, k requires 0 <= k < |r.keys| => (r.keys[k], r.entries[r.keys[k]]))
  }

  // ---------------------------------------------------------------------------
  // One ticker (RotatingTechStack)
  // ---------------------------------------------------------------------------

  /** The width of one tile, in pixels. */
  const ItemWidth := 200

  /** The width of one copy of the items, in pixels. */
  function TotalWidth(items: seq<TechItem>): (w: int)
    ensures w % ItemWidth == 0 && w / ItemWidth == |items|
  {
    |items| * ItemWidth
  }

  /**
    The time one loop of the animation takes, in seconds. Each tile moves by
    one tile width every `speed` seconds, whatever the number of items.
   */
  function Duration(items: seq<TechItem>, speed: int): (d: int)
    ensures d * ItemWidth == TotalWidth(items) * speed
  {
    |items| * speed
  }

  /** The horizontal positions, in pixels, the strip moves between. */
  function Keyframes(reverse: bool, totalWidth: int): (r: seq<int>)
    ensures |r| == 2 && {r[0], r[1]} == {0, -totalWidth}
    ensures reverse ==> r[1] == 0
    ensures !reverse ==> r[0] == 0
  {
    if reverse then [-totalWidth, 0] else [0, -totalWidth]
  }

  function Reverse<T>(s: seq<T>): (r: seq<T>)
    ensures |r| == |s|
    ensures forall i :: 0 <= i < |s| ==> r[i] == s[|s| - 1 - i]
  {
    if s == [] then [] else Reverse(s[1..]) + [s[0]]
  }

  /** A reversed ticker runs through the forward keyframes backwards. */
  lemma ReversedKeyframes(totalWidth: int)
    ensures Keyframes(true, totalWidth) == Reverse(Keyframes(false, totalWidth))
    ensures Keyframes(false, totalWidth) == Reverse(Keyframes(true, totalWidth))
  {
  }

  /** The strip is the items followed by the items again. */
  function Doubled(items: seq<TechItem>): (r: seq<TechItem>)
    ensures |r| == 2 * |items|
    ensures forall i :: 0 <= i < |items| ==> r[i] == items[i] && r[i + |items|] == items[i]
  {
    items + items
  }

  /**
    The strip's second half repeats its first: moving it by the width of one
    copy shows the same tiles, so the loop restarts without a jump.
   */
  lemma SeamlessLoop(items: seq<TechItem>)
    ensures |Doubled(items)| * ItemWidth == 2 * TotalWidth(items)
    ensures forall i :: 0 <= i < |items| ==> Doubled(items)[i + |items|] == Doubled(items)[i]
    ensures Doubled(items)[|items|..] == Doubled(items)[..|items|] == items
  {
  }

  // ---------------------------------------------------------------------------
  // Tile keys
  // ---------------------------------------------------------------------------

  function DigitChar(d: nat): (ch: char)
    requires d < 10
    ensures '0' <= ch <= '9'
    ensures (ch as int) - ('0' as int) == d
  {
    (('0' as int) + d) as char
  }

  /** The decimal text of a number, as a template literal prints it. */
  function NatToDecimal(n: nat): (s: string)
    ensures |s| >= 1
    ensures n < 10 <==> |s| == 1
    ensures forall i :: 0 <= i < |s| ==> '0' <= s[i] <= '9'
    decreases n
  {
    if n < 10 then [DigitChar(n)] else NatToDecimal(n / 10) + [DigitChar(n % 10)]
  }

  /** Different numbers have different decimal texts. */
  lemma {:induction false} NatToDecimalInjective(a: nat, b: nat)
    requires NatToDecimal(a) == NatToDecimal(b)
    ensures a == b
    decreases a
  {
    var s := NatToDecimal(a);
    if a >= 10 && b >= 10 {
      assert DigitChar(a % 10) == s[|s| - 1] == DigitChar(b % 10);
      assert NatToDecimal(a / 10) == s[..|s| - 1] == NatToDecimal(b / 10);
      NatToDecimalInjective(a / 10, b / 10);
    } else if a < 10 && b < 10 {
      assert DigitChar(a) == s[0] == DigitChar(b);
    }
  }

  /** `${name}-${index}` */
  function TileKey(name: string, index: nat): (k: string)
    ensures AfterLastDash(k) == NatToDecimal(index)
    ensures |k| > |name| && k[..|name|] == name
  {
    SplitAtLastDash(name, NatToDecimal(index));
    name + "-" + NatToDecimal(index)
  }

  /** The text after the last dash of `s` (all of `s` if it has none). */
  function AfterLastDash(s: string): string
  {
    if s == [] || s[|s| - 1] == '-' then [] else AfterLastDash(s[..|s| - 1]) + [s[|s| - 1]]
  }

  /** Joining a text and a dash-free text with a dash: the join can be undone. */
  lemma {:induction false} SplitAtLastDash(x: string, d: string)
    requires forall i :: 0 <= i < |d| ==> d[i] != '-'
    ensures AfterLastDash(x + "-" + d) == d
    ensures (x + "-" + d)[..|x|] == x
  {
    var s := x + "-" + d;
    if d != [] {
      var d' := d[..|d| - 1];
      assert s[..|s| - 1] == x + "-" + d';
      SplitAtLastDash(x, d');
      assert d' + [d[|d| - 1]] == d;
    }
  }

  /** Tiles at different positions get different keys, whatever their names. */
  lemma TileKeyInjective(name1: string, i: nat, name2: string, j: nat)
    requires TileKey(name1, i) == TileKey(name2, j)
    ensures i == j && name1 == name2
  {
    SplitAtLastDash(name1, NatToDecimal(i));
    SplitAtLastDash(name2, NatToDecimal(j));
    NatToDecimalInjective(i, j);
  }

  // ---------------------------------------------------------------------------
  // The rendered ticker
  // ---------------------------------------------------------------------------

  datatype Tile = Tile(key: string, item: TechItem)

  /** What RotatingTechStack renders for its props. */
  datatype Ticker = Ticker(
    totalWidth: int,
    keyframes: seq<int>,
    duration: int,
    tiles: seq<Tile>)

  /** The tiles of the strip, keyed `${name}-${index}` by their position in it. */
  function Tiles(items: seq<TechItem>): (tiles: seq<Tile>)
    ensures |tiles| == 2 * |items|
    ensures forall i :: 0 <= i < |items| ==> tiles[i].item == items[i] && tiles[i + |items|].item == items[i]
    ensures forall i, j :: 0 <= i < j < |tiles| ==> tiles[i].key != tiles[j].key
  {
    var strip := Doubled(items);
    var tiles := seq(|strip|, i requires 0 <= i < |strip| => Tile(TileKey(strip[i].name, i), strip[i]));
    forall i, j | 0 <= i < j < |tiles| ensures tiles[i].key != tiles[j].key {
      if tiles[i].key == tiles[j].key {
        TileKeyInjective(strip[i].name, i, strip[j].name, j);
      }
    }
    tiles
  }

  function RotatingTechStack(items: seq<TechItem>, speed: int, reverse: bool): (t: Ticker)
    ensures t.totalWidth == |items| * ItemWidth
    ensures t.duration == |items| * speed
    ensures t.keyframes == if reverse then Reverse(Keyframes(false, t.totalWidth)) else Keyframes(false, t.totalWidth)
    ensures |t.tiles| == 2 * |items|
    ensures forall i :: 0 <= i < |items| ==> t.tiles[i].item == items[i] && t.tiles[i + |items|].item == items[i]
    ensures forall i, j :: 0 <= i < j < |t.tiles| ==> t.tiles[i].key != t.tiles[j].key
  {
    ReversedKeyframes(TotalWidth(items));
    Ticker(TotalWidth(items), Keyframes(reverse, TotalWidth(items)), Duration(items, speed), Tiles(items))
  }

  // ---------------------------------------------------------------------------
  // The section (TechStack)
  // ---------------------------------------------------------------------------

  /** The speed of the ticker at position `index` among the categories. */
  function SectionSpeed(index: nat): (s: int)
    ensures s == 15 || s == 20
    ensures s < 20 <==> SectionReverse(index)
  {
    if index == 1 then 15 else 20
  }

  /** Whether the ticker at position `index` runs backwards. */
  function SectionReverse(index: nat): (r: bool)
    ensures r <==> index == 1
  {
    index == 1
  }

  /** The second ticker, and only it, runs backwards and faster. */
  lemma SectionChoice(index: nat)
    ensures SectionReverse(index) <==> index == 1
    ensures SectionSpeed(index) == (if SectionReverse(index) then 15 else 20)
  {
  }

  datatype Section = Section(category: string, ticker: Ticker)

  /** One section per category, in first-appearance order. */
  method RenderTechStack(items: seq<TechItem>) returns (sections: seq<Section>)
    ensures |sections| == |Categories(items)|
    ensures forall k :: 0 <= k < |sections| ==>
      var c := Categories(items)[k];
      sections[k] == Section(c, RotatingTechStack(InCategory(items, c), if k == 1 then 15 else 20, k == 1))
  {
    var grouped := GroupByCategory(items);
    var entries := Entries(grouped);
    sections := seq(|entries|, k requires 0 <= k < |entries| =>
      Section(entries[k].0, RotatingTechStack(entries[k].1, SectionSpeed(k), SectionReverse(k))));
  }

  /** Appending a run of items of one category extends the grouping by that run. */
  lemma {:induction false} AppendRun(items: seq<TechItem>, run: seq<TechItem>, c: string)
    requires run != []
    requires forall i :: 0 <= i < |run| ==> run[i].category == c
    ensures Categories(items + run) ==
      if c in Categories(items) then Categories(items) else Categories(items) + [c]
    ensures forall c' :: InCategory(items + run, c') == InCategory(items, c') + (if c' == c then run else [])
  {
    var init, x := run[..|run| - 1], run[|run| - 1];
    assert items + run == (items + init) + [x];
    CategoriesSnoc(items + init, x);
    forall c' {
      InCategorySnoc(items + init, x, c');
    }
    if init == [] {
      assert items + init == items;
    } else {
      AppendRun(items, init, c);
      assert init + [x] == run;
    }
  }

  /** The concrete list has three categories, Frontend, Backend and Tools, of 5, 8 and 5 items. */
  lemma TechStackCategories()
    ensures Categories(TechStackItems()) == ["Frontend", "Backend", "Tools"]
    ensures |InCategory(TechStackItems(), "Frontend")| == 5
    ensures |InCategory(TechStackItems(), "Backend")| == 8
    ensures |InCategory(TechStackItems(), "Tools")| == 5
  {
    var all := TechStackItems();
    var front, back, tools := all[..5], all[5..13], all[13..];
    assert all == front + back + tools;
    assert [] + front == front;
    AppendRun([], front, "Frontend");
    AppendRun(front, back, "Backend");
    AppendRun(front + back, tools, "Tools");
  }

  /**
    On the real list the second section is Backend: its 8 items loop in 120
    seconds, right to left reversed, while Frontend and Tools take 100 seconds.
   */
  lemma TechStackTickers()
    ensures |Categories(TechStackItems())| == 3 && Categories(TechStackItems())[1] == "Backend"
    ensures SectionReverse(1) && !SectionReverse(0) && !SectionReverse(2)
    ensures RotatingTechStack(InCategory(TechStackItems(), "Frontend"), SectionSpeed(0), SectionReverse(0)).duration == 100
    ensures RotatingTechStack(InCategory(TechStackItems(), "Backend"), SectionSpeed(1), SectionReverse(1)).duration == 120
    ensures RotatingTechStack(InCategory(TechStackItems(), "Tools"), SectionSpeed(2), SectionReverse(2)).duration == 100
    ensures RotatingTechStack(InCategory(TechStackItems(), "Backend"), SectionSpeed(1), SectionReverse(1)).totalWidth == 1600
  {
    TechStackCategories();
  }
}
