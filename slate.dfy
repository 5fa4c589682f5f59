/**
 * The slate assembler: `local_date_bounds` and `filter_today` (keep today's
 * items, then stable-sort them by their raw `commence_time` text),
 * `get_today_by_league`, and the `block_mlb`/`block_nfl`/`block_ufc` loops
 * that predict each item and produce a header with one line per item, or a
 * placeholder when there is none.
 */
module Slate {
  import opened Options
  import opened Probability
  import opened Ratings
  import opened Features
  import opened Predictions

  // ------------------------------------------------------- the day window

  const SecondsPerDay: int := 86400

  /** A half-open window `[start, end)` of instants (seconds). */
  datatype Window = Window(start: int, end: int)

  /** `local_date_bounds`: from local midnight today to one day later. */
  function LocalDateBounds(midnight: int): (w: Window)
  {
    Window(midnight, midnight + SecondsPerDay)
  }

  predicate InWindow(w: Window, t: int)
  {
    w.start <= t < w.end
  }

  /** Midnight itself and 23:59:59 are today; the next midnight is not. */
  lemma DayBoundaries(midnight: int, t: int)
    ensures InWindow(LocalDateBounds(midnight), t) <==> midnight <= t < midnight + 86400
    ensures InWindow(LocalDateBounds(midnight), midnight)
    ensures InWindow(LocalDateBounds(midnight), midnight + 86399)
    ensures !InWindow(LocalDateBounds(midnight), midnight + 86400)
  {
  }

  /** The timestamp parser: raw `commence_time` text to an instant. */
  type Parser = string -> int

  /** Whether `filter_today` keeps a timestamp: present, and its instant inside the window. */
  predicate OnSlate(time: string, w: Window, parse: Parser)
  {
    time != "" && InWindow(w, parse(time))
  }

  // ------------------------------------------------------- text order

  /** Python's `<=` on strings: lexicographic by code point. */
  predicate LexLe(a: string, b: string)
    decreases |a|
  {
    |a| == 0 || (|b| > 0 && (a[0] < b[0] || (a[0] == b[0] && LexLe(a[1..], b[1..]))))
  }

  lemma {:induction false} LexLeRefl(a: string)
    ensures LexLe(a, a)
    decreases |a|
  {
    if |a| > 0 {
      LexLeRefl(a[1..]);
    }
  }

  lemma {:induction false} LexLeTotal(a: string, b: string)
    ensures LexLe(a, b) || LexLe(b, a)
    decreases |a|
  {
    if |a| > 0 && |b| > 0 && a[0] == b[0] {
      LexLeTotal(a[1..], b[1..]);
    }
  }

  lemma {:induction false} LexLeTrans(a: string, b: string, c: string)
    requires LexLe(a, b) && LexLe(b, c)
    ensures LexLe(a, c)
    decreases |a|
  {
    if |a| > 0 && a[0] == b[0] && b[0] == c[0] {
      LexLeTrans(a[1..], b[1..], c[1..]);
    }
  }

  // ------------------------------------------------------- the stable sort

  /** Adjacent items are in ascending `commence_time` order. */
  ghost predicate Ascending(s: seq<Item>)
  {
    forall i :: 0 <= i < |s| - 1 ==> LexLe(s[i].commenceTime, s[i + 1].commenceTime)
  }

  /** Insert `x` before the first item whose time is not below it, so that it precedes its equals. */
  function Insert(x: Item, s: seq<Item>): (r: seq<Item>)
    ensures |r| == |s| + 1
    ensures r[0] == x || (s != [] && r[0] == s[0])
  {
    if s == [] then [x]
    else if LexLe(x.commenceTime, s[0].commenceTime) then [x] + s
    else [s[0]] + Insert(x, s[1..])
  }

  /** The effect of Python's stable `sort(key=commence_time)`, as an insertion sort. */
  function SortByTime(s: seq<Item>): (r: seq<Item>)
    ensures |r| == |s|
  {
    if s == [] then [] else Insert(s[0], SortByTime(s[1..]))
  }

  /** The items of `s` with timestamp text `time`, in order. */
  function WithTime(s: seq<Item>, time: string): (r: seq<Item>)
  {
    if s == [] then []
    else (if s[0].commenceTime == time then [s[0]] else []) + WithTime(s[1..], time)
  }

  lemma {:induction false} WithTimeAppend(s: seq<Item>, t: seq<Item>, time: string)
    ensures WithTime(s + t, time) == WithTime(s, time) + WithTime(t, time)
  {
    if s == [] {
      assert s + t == t;
    } else {
      assert (s + t)[0] == s[0];
      assert (s + t)[1..] == s[1..] + t;
      WithTimeAppend(s[1..], t, time);
    }
  }

  lemma {:induction false} InsertAscending(x: Item, s: seq<Item>)
    requires Ascending(s)
    ensures Ascending(Insert(x, s))
  {
    if s != [] && !LexLe(x.commenceTime, s[0].commenceTime) {
      LexLeTotal(x.commenceTime, s[0].commenceTime);
      InsertAscending(x, s[1..]);
      var r := Insert(x, s[1..]);
      assert Insert(x, s) == [s[0]] + r;
      assert r[0] == x || r[0] == s[1];
    }
  }

  lemma {:induction false} InsertPermutes(x: Item, s: seq<Item>)
    ensures multiset(Insert(x, s)) == multiset(s) + multiset{x}
  {
    if s != [] && !LexLe(x.commenceTime, s[0].commenceTime) {
      InsertPermutes(x, s[1..]);
      assert s == [s[0]] + s[1..];
    }
  }

  /** Inserting an item puts it in front of every item with the same time: stability. */
  lemma {:induction false} InsertStable(x: Item, s: seq<Item>, time: string)
    ensures WithTime(Insert(x, s), time) == WithTime([x], time) + WithTime(s, time)
  {
    if s == [] {
    } else if LexLe(x.commenceTime, s[0].commenceTime) {
      WithTimeAppend([x], s, time);
    } else {
      LexLeRefl(x.commenceTime);
      assert s[0].commenceTime != x.commenceTime;
      InsertStable(x, s[1..], time);
      WithTimeAppend([s[0]], Insert(x, s[1..]), time);
      WithTimeAppend([s[0]], s[1..], time);
      assert [s[0]] + s[1..] == s;
    }
  }

  lemma {:induction false} SortAscending(s: seq<Item>)
    ensures Ascending(SortByTime(s))
  {
    if s != [] {
      SortAscending(s[1..]);
      InsertAscending(s[0], SortByTime(s[1..]));
    }
  }

  lemma {:induction false} SortPermutes(s: seq<Item>)
    ensures multiset(SortByTime(s)) == multiset(s)
  {
    if s != [] {
      SortPermutes(s[1..]);
      InsertPermutes(s[0], SortByTime(s[1..]));
      assert s == [s[0]] + s[1..];
    }
  }

  /** Items with equal timestamp text keep their input order. */
  lemma {:induction false} SortStable(s: seq<Item>, time: string)
    ensures WithTime(SortByTime(s), time) == WithTime(s, time)
  {
    if s != [] {
      SortStable(s[1..], time);
      InsertStable(s[0], SortByTime(s[1..]), time);
      WithTimeAppend([s[0]], s[1..], time);
      assert [s[0]] + s[1..] == s;
    }
  }

  /** Adjacent order implies order between any two positions. */
  lemma {:induction false} AscendingPairwise(s: seq<Item>, i: int, j: int)
    requires Ascending(s) && 0 <= i <= j < |s|
    ensures LexLe(s[i].commenceTime, s[j].commenceTime)
    decreases j - i
  {
    if i == j {
      LexLeRefl(s[i].commenceTime);
    } else {
      AscendingPairwise(s, i + 1, j);
      LexLeTrans(s[i].commenceTime, s[i + 1].commenceTime, s[j].commenceTime);
    }
  }

  // ------------------------------------------------------- filter_today

  /** The items `filter_today`'s loop appends to `out`, in input order. */
  function Kept(items: seq<Item>, w: Window, parse: Parser): (r: seq<Item>)
  {
    if items == [] then []
    else Kept(items[..|items| - 1], w, parse)
         + (if OnSlate(items[|items| - 1].commenceTime, w, parse) then [items[|items| - 1]] else [])
  }

  lemma {:induction false} KeptCounts(items: seq<Item>, w: Window, parse: Parser, x: Item)
    ensures multiset(Kept(items, w, parse))[x]
         == if OnSlate(x.commenceTime, w, parse) then multiset(items)[x] else 0
  {
    if items != [] {
      var init := items[..|items| - 1];
      KeptCounts(init, w, parse, x);
      assert items == init + [items[|items| - 1]];
    }
  }

  lemma {:induction false} KeptWithTime(items: seq<Item>, w: Window, parse: Parser, time: string)
    ensures WithTime(Kept(items, w, parse), time)
         == if OnSlate(time, w, parse) then WithTime(items, time) else []
  {
    if items != [] {
      var init, last := items[..|items| - 1], items[|items| - 1];
      KeptWithTime(init, w, parse, time);
      assert items == init + [last];
      WithTimeAppend(init, [last], time);
      WithTimeAppend(Kept(init, w, parse), if OnSlate(last.commenceTime, w, parse) then [last] else [], time);
    }
  }

  /**
   * `filter_today`: exactly the items with a timestamp inside the day that
   * starts at local midnight `midnight` (each as often as in the input), in
   * ascending order of the timestamp text, and items with the same text in
   * their input order.
   */
  method FilterToday(items: seq<Item>, midnight: int, parse: Parser) returns (out: seq<Item>)
    ensures forall x ::
              multiset(out)[x] == if OnSlate(x.commenceTime, LocalDateBounds(midnight), parse) then multiset(items)[x] else 0
    ensures Ascending(out)
    ensures forall time ::
              WithTime(out, time) == if OnSlate(time, LocalDateBounds(midnight), parse) then WithTime(items, time) else []
    ensures out == SortByTime(Kept(items, LocalDateBounds(midnight), parse))
  {
    var w := LocalDateBounds(midnight);
    out := [];
    for i := 0 to |items|
      invariant out == Kept(items[..i], w, parse)
    {
      assert items[..i + 1][..i] == items[..i];
      var time := items[i].commenceTime;
      if time == "" {
        continue;
      }
      if InWindow(w, parse(time)) {
        out := out + [items[i]];
      }
    }
    assert items[..|items|] == items;
    ghost var kept := out;
    out := SortByTime(out);
    SortAscending(kept);
    SortPermutes(kept);
    forall x
      ensures multiset(out)[x] == if OnSlate(x.commenceTime, w, parse) then multiset(items)[x] else 0
    {
      KeptCounts(items, w, parse, x);
    }
    forall time
      ensures WithTime(out, time) == if OnSlate(time, w, parse) then WithTime(items, time) else []
    {
      SortStable(kept, time);
      KeptWithTime(items, w, parse, time);
    }
  }

  // ------------------------------------------------------- the blocks

  /** One rendered pick line, before text formatting. */
  datatype Line = Line(time: string, first: string, second: string, venue: Option<string>,
                       firstChance: real, pick: string)

  /** A sport's block: a header with its lines, or the placeholder text. */
  datatype Block = Listing(header: string, lines: seq<Line>) | Placeholder(text: string)

  function Header(sport: Sport): (r: string)
  {
    match sport
    case MLB => "*MLB Today*"
    case NFL => "*NFL Today*"
    case UFC => "*UFC Today*"
  }

  function EmptyText(sport: Sport): (r: string)
  {
    match sport
    case MLB => "No MLB games today."
    case NFL => "No NFL games today."
    case UFC => "No UFC fights today."
  }

  /** The pick of a line: the first-named side iff its chance is at least one half. */
  function PickOf(p: real, first: string, second: string): (r: string)
  {
    if PicksFirst(p) then first else second
  }

  /** The line `block_*` makes for `item`, against the ratings `m`. */
  function LineFor(sport: Sport, m: map<string, real>, item: Item, parse: Parser, fetch: WeatherSource): (r: Line)
  {
    match sport
    case MLB =>
      var g := MlbFeatures(item, parse(item.commenceTime), fetch);
      var home, away := Shown(g.home), Shown(g.away);
      var p := MlbChance(m, home, away, g.parkFactor, g.temp, g.wind);
      Line(item.commenceTime, home, away, None, p, PickOf(p, home, away))
    case NFL =>
      var g := NflFeatures(item, parse(item.commenceTime), fetch);
      var home, away := Shown(g.home), Shown(g.away);
      var p := NflChance(m, home, away, g.outdoor, g.temp, g.wind, g.precip, g.restHome, g.restAway);
      Line(item.commenceTime, home, away, g.stadium, p, PickOf(p, home, away))
    case UFC =>
      var (a, b) := UfcFeatures(item);
      var p := UfcChance(m, a, b);
      Line(item.commenceTime, a, b, None, p, PickOf(p, a, b))
  }

  /**
   * One iteration of a `block_*` loop: features, prediction (reading the
   * store), pick. The line is the one predicted against any store `m` that
   * gives every key the same rating as the current one.
   */
  method PredictLine(sport: Sport, store: RatingStore, item: Item, parse: Parser, fetch: WeatherSource,
                     ghost m: map<string, real>)
    returns (line: Line)
    requires SameRatings(store.ratings, m)
    modifies store
    ensures line == LineFor(sport, m, item, parse, fetch)
    ensures SameRatings(store.ratings, m)
    ensures old(store.ratings).Keys <= store.ratings.Keys
  {
    LineForDependsOnRatingsOnly(sport, store.ratings, m, item, parse, fetch);
    var instant := parse(item.commenceTime);
    match sport {
      case MLB =>
        var g := MlbFeatures(item, instant, fetch);
        var home, away := Shown(g.home), Shown(g.away);
        var ph := MlbPredict(store, home, away, g.parkFactor, g.temp, g.wind);
        var pick := if ph >= 0.5 then home else away;
        line := Line(item.commenceTime, home, away, None, ph, pick);
        ReadsKeepRatings(old(store.ratings), Key(MLB, home), Key(MLB, away));
      case NFL =>
        var g := NflFeatures(item, instant, fetch);
        var home, away := Shown(g.home), Shown(g.away);
        var ph := NflPredict(store, home, away, g.outdoor, g.temp, g.wind, g.precip, g.restHome, g.restAway);
        var pick := if ph >= 0.5 then home else away;
        line := Line(item.commenceTime, home, away, g.stadium, ph, pick);
        ReadsKeepRatings(old(store.ratings), Key(NFL, home), Key(NFL, away));
      case UFC =>
        var (a, b) := UfcFeatures(item);
        var pa := UfcPredict(store, a, b);
        var pick := if pa >= 0.5 then a else b;
        line := Line(item.commenceTime, a, b, None, pa, pick);
        ReadsKeepRatings(old(store.ratings), Key(UFC, a), Key(UFC, b));
    }
  }

  /** The lines of a block for `items`, in order, all predicted against `m`. */
  function LinesFor(sport: Sport, m: map<string, real>, items: seq<Item>, parse: Parser, fetch: WeatherSource): (r: seq<Line>)
    ensures |r| == |items|
  {
    if items == [] then []
    else LinesFor(sport, m, items[..|items| - 1], parse, fetch) + [LineFor(sport, m, items[|items| - 1], parse, fetch)]
  }

  /** Line `j` of a block is the line predicted for item `j`. */
  lemma {:induction false} LinesForAt(sport: Sport, m: map<string, real>, items: seq<Item>, parse: Parser, fetch: WeatherSource, j: int)
    requires 0 <= j < |items|
    ensures LinesFor(sport, m, items, parse, fetch)[j] == LineFor(sport, m, items[j], parse, fetch)
  {
    if j < |items| - 1 {
      LinesForAt(sport, m, items[..|items| - 1], parse, fetch, j);
    }
  }

  /**
   * `block_mlb`, `block_nfl`, `block_ufc`: the placeholder for an empty list,
   * otherwise the header and one line per item, in order, each predicted from
   * the ratings as they were before the block (reads insert defaults but
   * change no rating).
   */
  method MakeBlock(sport: Sport, store: RatingStore, items: seq<Item>, parse: Parser, fetch: WeatherSource)
    returns (b: Block)
    modifies store
    ensures b == if items == [] then Placeholder(EmptyText(sport))
                 else Listing(Header(sport), LinesFor(sport, old(store.ratings), items, parse, fetch))
    ensures b.Listing? ==> forall j :: 0 <= j < |items| ==> b.lines[j] == LineFor(sport, old(store.ratings), items[j], parse, fetch)
    ensures SameRatings(store.ratings, old(store.ratings))
    ensures old(store.ratings).Keys <= store.ratings.Keys
  {
    ghost var m := store.ratings;
    var lines: seq<Line> := [];
    for i := 0 to |items|
      invariant lines == LinesFor(sport, m, items[..i], parse, fetch)
      invariant SameRatings(store.ratings, m)
      invariant m.Keys <= store.ratings.Keys
    {
      var line := PredictLine(sport, store, items[i], parse, fetch, m);
      assert items[..i + 1][..i] == items[..i];
      lines := lines + [line];
    }
    assert items[..|items|] == items;
    forall j | 0 <= j < |items|
      ensures lines[j] == LineFor(sport, m, items[j], parse, fetch)
    {
      LinesForAt(sport, m, items, parse, fetch, j);
    }
    if |lines| > 0 {
      b := Listing(Header(sport), lines);
    } else {
      b := Placeholder(EmptyText(sport));
    }
  }

  lemma LineForDependsOnRatingsOnly(sport: Sport, m1: map<string, real>, m2: map<string, real>,
                                    item: Item, parse: Parser, fetch: WeatherSource)
    requires SameRatings(m1, m2)
    ensures LineFor(sport, m1, item, parse, fetch) == LineFor(sport, m2, item, parse, fetch)
  {
    match sport {
      case MLB =>
        var g := MlbFeatures(item, parse(item.commenceTime), fetch);
        ChancesDependOnRatingsOnly(m1, m2, Shown(g.home), Shown(g.away));
      case NFL =>
        var g := NflFeatures(item, parse(item.commenceTime), fetch);
        ChancesDependOnRatingsOnly(m1, m2, Shown(g.home), Shown(g.away));
      case UFC =>
        var (a, b) := UfcFeatures(item);
        ChancesDependOnRatingsOnly(m1, m2, a, b);
    }
  }

  /** Each line picks its first-named side exactly when that side's chance is at least one half. */
  lemma LinePick(sport: Sport, m: map<string, real>, item: Item, parse: Parser, fetch: WeatherSource)
    ensures var l := LineFor(sport, m, item, parse, fetch);
      0.0 < l.firstChance < 1.0 &&
      (l.firstChance >= 0.5 ==> l.pick == l.first) &&
      (l.firstChance < 0.5 ==> l.pick == l.second)
  {
  }

  /** `"\n".join(lines)`. */
  function JoinLines(lines: seq<string>): (r: string)
  {
    if lines == [] then ""
    else if |lines| == 1 then lines[0]
    else lines[0] + "\n" + JoinLines(lines[1..])
  }

  /** The block's text, given the formatting of one line (outside this model). */
  function Render(b: Block, format: Line -> string): (r: string)
  {
    match b
    case Placeholder(text) => text
    case Listing(header, lines) => header + "\n" + JoinLines(seq(|lines|, i requires 0 <= i < |lines| => format(lines[i])))
  }

  /**
   * A block's text tells an empty day from a busy one: the placeholder renders
   * as itself, and a listing's text starts with its header line and is never
   * the placeholder.
   */
  lemma RenderShape(sport: Sport, lines: seq<Line>, format: Line -> string)
    ensures Render(Placeholder(EmptyText(sport)), format) == EmptyText(sport)
    ensures var t := Render(Listing(Header(sport), lines), format);
      t[..|Header(sport)| + 1] == Header(sport) + "\n" && t != EmptyText(sport)
  {
    var t := Render(Listing(Header(sport), lines), format);
    assert t[0] == '*';
    assert EmptyText(sport)[0] == 'N';
  }

  /** `get_today_by_league` followed by the sport's block: the slate a post or a command shows. */
  method TodayBlock(sport: Sport, store: RatingStore, upcoming: seq<Item>, midnight: int,
                    parse: Parser, fetch: WeatherSource) returns (b: Block)
    modifies store
    ensures var today := SortByTime(Kept(upcoming, LocalDateBounds(midnight), parse));
      b == if today == [] then Placeholder(EmptyText(sport))
           else Listing(Header(sport), LinesFor(sport, old(store.ratings), today, parse, fetch))
    ensures b.Placeholder? <==> forall x :: x in upcoming ==> !OnSlate(x.commenceTime, LocalDateBounds(midnight), parse)
    ensures b.Placeholder? ==> b.text == EmptyText(sport)
    ensures SameRatings(store.ratings, old(store.ratings))
    ensures old(store.ratings).Keys <= store.ratings.Keys
  {
    var w := LocalDateBounds(midnight);
    var today := FilterToday(upcoming, midnight, parse);
    b := MakeBlock(sport, store, today, parse, fetch);
    if today == [] {
      forall x | x in upcoming
        ensures !OnSlate(x.commenceTime, w, parse)
      {
        assert multiset(today)[x] == 0;
      }
    } else {
      var x := today[0];
      assert x in multiset(today);
    }
  }
}
