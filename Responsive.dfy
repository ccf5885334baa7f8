/**
 * The responsive helpers as functions of the viewport width: the breakpoint table, the
 * breakpoint tests and classification, and the Tailwind class-string builders.
 */
module Responsive {
  import opened Wrappers
  import opened Text

  /** The named breakpoints, smallest first; `Xxl` is the one named "2xl". */
  datatype Breakpoint = Xs | Sm | Md | Lg | Xl | Xxl

  function Name(b: Breakpoint): string
  {
    match b
    case Xs => "xs"
    case Sm => "sm"
    case Md => "md"
    case Lg => "lg"
    case Xl => "xl"
    case Xxl => "2xl"
  }

  /** The position of a breakpoint in the table. */
  function Rank(b: Breakpoint): nat
  {
    match b
    case Xs => 0
    case Sm => 1
    case Md => 2
    case Lg => 3
    case Xl => 4
    case Xxl => 5
  }

  /** The minimum width of each breakpoint, as in the `breakpoints` table. */
  function MinWidth(b: Breakpoint): int
  {
    match b
    case Xs => 475
    case Sm => 640
    case Md => 768
    case Lg => 1024
    case Xl => 1280
    case Xxl => 1536
  }

  /** The thresholds strictly increase along the table. */
  lemma ThresholdsIncrease(b: Breakpoint, c: Breakpoint)
    ensures Rank(b) < Rank(c) <==> MinWidth(b) < MinWidth(c)
    ensures b == c <==> Name(b) == Name(c)
  {
  }

  /** `breakpoints[key]`: the threshold under a key, if the key is a breakpoint name. */
  function Threshold(key: string): (t: Option<int>)
    ensures t.Some? <==> exists b :: Name(b) == key
    ensures forall b :: Name(b) == key ==> t == Some(MinWidth(b))
  {
    match key
    case "xs" => assert Name(Xs) == "xs"; Some(475)
    case "sm" => assert Name(Sm) == "sm"; Some(640)
    case "md" => assert Name(Md) == "md"; Some(768)
    case "lg" => assert Name(Lg) == "lg"; Some(1024)
    case "xl" => assert Name(Xl) == "xl"; Some(1280)
    case "2xl" => assert Name(Xxl) == "2xl"; Some(1536)
    case _ => assert forall b :: Name(b) != key; None
  }

  /** `useBreakpoint(key)`: the width reaches the key's threshold; an unknown key compares false. */
  function UseBreakpoint(width: int, key: string): (atLeast: bool)
    ensures atLeast <==> exists b :: Name(b) == key && width >= MinWidth(b)
  {
    match Threshold(key)
    case Some(t) => width >= t
    case None => false
  }

  /** A wider window reaches every breakpoint a narrower one reaches. */
  lemma UseBreakpointMonotone(w1: int, w2: int, key: string)
    requires w1 <= w2 && UseBreakpoint(w1, key)
    ensures UseBreakpoint(w2, key)
  {
  }

  /**
   * `useCurrentBreakpoint`: the largest breakpoint whose threshold the width reaches, and
   * "xs" for every width below 640 (even below xs's own 475).
   */
  function CurrentBreakpoint(width: int): (b: Breakpoint)
    ensures b == Xs || MinWidth(b) <= width
    ensures forall c :: MinWidth(c) <= width ==> Rank(c) <= Rank(b)
    ensures b == Xs <==> width < 640
  {
    if width >= 1536 then Xxl
    else if width >= 1280 then Xl
    else if width >= 1024 then Lg
    else if width >= 768 then Md
    else if width >= 640 then Sm
    else if width >= 475 then Xs
    else Xs
  }

  /** The breakpoint never falls as the window widens. */
  lemma CurrentBreakpointMonotone(w1: int, w2: int)
    requires w1 <= w2
    ensures Rank(CurrentBreakpoint(w1)) <= Rank(CurrentBreakpoint(w2))
  {
  }

  /** `useIsMobile`: below md. */
  predicate IsMobile(width: int)
  {
    !UseBreakpoint(width, "md")
  }

  /** `useIsTablet`: from md up to but not including lg. */
  predicate IsTablet(width: int)
  {
    width >= MinWidth(Md) && width < MinWidth(Lg)
  }

  /** `useIsDesktop`: from lg up. */
  predicate IsDesktop(width: int)
  {
    UseBreakpoint(width, "lg")
  }

  /** Every width is exactly one of mobile (below 768), tablet (768 to 1023) and desktop (1024 and up). */
  lemma ExactlyOneDevice(width: int)
    ensures IsMobile(width) <==> width < 768
    ensures IsTablet(width) <==> 768 <= width < 1024
    ensures IsDesktop(width) <==> width >= 1024
    ensures IsMobile(width) || IsTablet(width) || IsDesktop(width)
    ensures !(IsMobile(width) && IsTablet(width)) && !(IsMobile(width) && IsDesktop(width))
    ensures !(IsTablet(width) && IsDesktop(width))
  {
    assert Name(Md) == "md" && Name(Lg) == "lg";
  }

  /** One configuration entry: "base" classes are emitted as they are, others under the breakpoint's prefix. */
  function EntryClasses(entry: (string, string)): (s: string)
    ensures entry.0 == "base" ==> s == entry.1
    ensures entry.0 != "base" ==> s == entry.0 + ":" + entry.1
  {
    if entry.0 == "base" then entry.1 else entry.0 + ":" + entry.1
  }

  function AllEntryClasses(config: seq<(string, string)>): (r: seq<string>)
    ensures |r| == |config| && forall i :: 0 <= i < |config| ==> r[i] == EntryClasses(config[i])
  {
    seq(|config|, i requires 0 <= i < |config| => EntryClasses(config[i]))
  }

  /** `getResponsiveClasses`: the entries in order, each prefixed as above, joined by single spaces. */
  function GetResponsiveClasses(config: seq<(string, string)>): string
  {
    Join(AllEntryClasses(config), " ")
  }

  /** Splitting a configuration splits its class string at one space, so entry order is kept. */
  lemma ResponsiveClassesAppend(a: seq<(string, string)>, b: seq<(string, string)>)
    requires a != [] && b != []
    ensures GetResponsiveClasses(a + b) == GetResponsiveClasses(a) + " " + GetResponsiveClasses(b)
  {
    assert AllEntryClasses(a + b) == AllEntryClasses(a) + AllEntryClasses(b);
    JoinAppend(AllEntryClasses(a), AllEntryClasses(b), " ");
  }

  lemma ResponsiveClassesSingle(entry: (string, string))
    ensures GetResponsiveClasses([entry]) == EntryClasses(entry)
  {
    assert AllEntryClasses([entry]) == [EntryClasses(entry)];
  }

  /** An example: `{ base: "p-2", md: "p-4" }` gives "p-2 md:p-4". */
  lemma ResponsiveClassesExample()
    ensures GetResponsiveClasses([("base", "p-2"), ("md", "p-4")]) == "p-2 md:p-4"
  {
    ResponsiveClassesAppend([("base", "p-2")], [("md", "p-4")]);
    assert [("base", "p-2")] + [("md", "p-4")] == [("base", "p-2"), ("md", "p-4")];
    ResponsiveClassesSingle(("base", "p-2"));
    ResponsiveClassesSingle(("md", "p-4"));
  }

  /** `getContainerMaxWidth`: the screen class for sm to 2xl, and the full width for any other key. */
  function GetContainerMaxWidth(key: string): (c: string)
    ensures forall b :: b != Xs && Name(b) == key ==> c == "max-w-screen-" + key
    ensures (key == "xs" || Threshold(key).None?) <==> c == "max-w-full"
  {
    match key
    case "sm" => "max-w-screen-sm"
    case "md" => "max-w-screen-md"
    case "lg" => "max-w-screen-lg"
    case "xl" => "max-w-screen-xl"
    case "2xl" => "max-w-screen-2xl"
    case _ => "max-w-full"
  }

  /**
   * The shape shared by `getResponsiveTextClasses`, `getResponsiveSpacing` and
   * `getResponsiveGrid`: the xs value unprefixed and under `xs:`, then the sm, md, lg and xl
   * values under their prefixes.
   */
  function Ladder(xs: string, sm: string, md: string, lg: string, xl: string): (r: seq<string>)
    ensures |r| == 6 && r[0] == xs && r[1] == "xs:" + xs && r[2] == "sm:" + sm
    ensures r[3] == "md:" + md && r[4] == "lg:" + lg && r[5] == "xl:" + xl
  {
    [xs, "xs:" + xs, "sm:" + sm, "md:" + md, "lg:" + lg, "xl:" + xl]
  }

  /** The values a caller may give for each breakpoint; absent ones take the helper's defaults. */
  datatype Sizes<T> = Sizes(xs: Option<T>, sm: Option<T>, md: Option<T>, lg: Option<T>, xl: Option<T>)

  /** The five values with the defaults filled in. */
  function WithDefaults<T>(given: Sizes<T>, xs: T, sm: T, md: T, lg: T, xl: T): (r: Sizes<T>)
    ensures r.xs.Some? && r.sm.Some? && r.md.Some? && r.lg.Some? && r.xl.Some?
    ensures given.xs.Some? ==> r.xs == given.xs
    ensures given.xs.None? ==> r.xs == Some(xs)
    ensures given.sm.Some? ==> r.sm == given.sm
    ensures given.sm.None? ==> r.sm == Some(sm)
    ensures given.md.Some? ==> r.md == given.md
    ensures given.md.None? ==> r.md == Some(md)
    ensures given.lg.Some? ==> r.lg == given.lg
    ensures given.lg.None? ==> r.lg == Some(lg)
    ensures given.xl.Some? ==> r.xl == given.xl
    ensures given.xl.None? ==> r.xl == Some(xl)
  {
    Sizes(Some(given.xs.GetOr(xs)), Some(given.sm.GetOr(sm)), Some(given.md.GetOr(md)),
          Some(given.lg.GetOr(lg)), Some(given.xl.GetOr(xl)))
  }

  /** `getResponsiveTextClasses`: defaults text-sm, text-base, text-lg, text-xl, text-2xl. */
  function TextClasses(sizes: Sizes<string>): seq<string>
  {
    var s := WithDefaults(sizes, "text-sm", "text-base", "text-lg", "text-xl", "text-2xl");
    Ladder(s.xs.value, s.sm.value, s.md.value, s.lg.value, s.xl.value)
  }

  function GetResponsiveTextClasses(sizes: Sizes<string>): string
  {
    Join(TextClasses(sizes), " ")
  }

  /** `getResponsiveSpacing`: defaults p-2, p-4, p-6, p-8, p-10. */
  function SpacingClasses(spacing: Sizes<string>): seq<string>
  {
    var s := WithDefaults(spacing, "p-2", "p-4", "p-6", "p-8", "p-10");
    Ladder(s.xs.value, s.sm.value, s.md.value, s.lg.value, s.xl.value)
  }

  function GetResponsiveSpacing(spacing: Sizes<string>): string
  {
    Join(SpacingClasses(spacing), " ")
  }

  function GridCols(n: int): string
  {
    "grid-cols-" + IntToString(n)
  }

  /** `getResponsiveGrid`: column counts, defaults 1, 1, 2, 3, 4, each written as `grid-cols-<n>`. */
  function GridClasses(cols: Sizes<int>): seq<string>
  {
    var c := WithDefaults(cols, 1, 1, 2, 3, 4);
    Ladder(GridCols(c.xs.value), GridCols(c.sm.value), GridCols(c.md.value),
           GridCols(c.lg.value), GridCols(c.xl.value))
  }

  function GetResponsiveGrid(cols: Sizes<int>): string
  {
    Join(GridClasses(cols), " ")
  }

  /** Leaving a text size out is the same as giving its default, for every key. */
  lemma TextLadderDefaults(sizes: Sizes<string>)
    ensures GetResponsiveTextClasses(sizes.(xs := None)) == GetResponsiveTextClasses(sizes.(xs := Some("text-sm")))
    ensures GetResponsiveTextClasses(sizes.(sm := None)) == GetResponsiveTextClasses(sizes.(sm := Some("text-base")))
    ensures GetResponsiveTextClasses(sizes.(md := None)) == GetResponsiveTextClasses(sizes.(md := Some("text-lg")))
    ensures GetResponsiveTextClasses(sizes.(lg := None)) == GetResponsiveTextClasses(sizes.(lg := Some("text-xl")))
    ensures GetResponsiveTextClasses(sizes.(xl := None)) == GetResponsiveTextClasses(sizes.(xl := Some("text-2xl")))
  {
  }

  /** Leaving a spacing out is the same as giving its default, for every key. */
  lemma SpacingLadderDefaults(sizes: Sizes<string>)
    ensures GetResponsiveSpacing(sizes.(xs := None)) == GetResponsiveSpacing(sizes.(xs := Some("p-2")))
    ensures GetResponsiveSpacing(sizes.(sm := None)) == GetResponsiveSpacing(sizes.(sm := Some("p-4")))
    ensures GetResponsiveSpacing(sizes.(md := None)) == GetResponsiveSpacing(sizes.(md := Some("p-6")))
    ensures GetResponsiveSpacing(sizes.(lg := None)) == GetResponsiveSpacing(sizes.(lg := Some("p-8")))
    ensures GetResponsiveSpacing(sizes.(xl := None)) == GetResponsiveSpacing(sizes.(xl := Some("p-10")))
  {
  }

  /** Leaving a column count out is the same as giving its default, for every key. */
  lemma GridLadderDefaults(cols: Sizes<int>)
    ensures GetResponsiveGrid(cols.(xs := None)) == GetResponsiveGrid(cols.(xs := Some(1)))
    ensures GetResponsiveGrid(cols.(sm := None)) == GetResponsiveGrid(cols.(sm := Some(1)))
    ensures GetResponsiveGrid(cols.(md := None)) == GetResponsiveGrid(cols.(md := Some(2)))
    ensures GetResponsiveGrid(cols.(lg := None)) == GetResponsiveGrid(cols.(lg := Some(3)))
    ensures GetResponsiveGrid(cols.(xl := None)) == GetResponsiveGrid(cols.(xl := Some(4)))
  {
  }

  /** The xs value is the base class as well, so it also applies below 475 pixels. */
  lemma XsValueIsBase(sizes: Sizes<string>, v: string)
    ensures TextClasses(sizes.(xs := Some(v)))[0] == v
    ensures TextClasses(sizes.(xs := Some(v)))[1] == "xs:" + v
    ensures SpacingClasses(sizes.(xs := Some(v)))[0] == v
  {
  }

  /** With nothing given, the grid is one column up to sm, then two, three and four. */
  lemma GridWithNothingGiven()
    ensures GridClasses(Sizes(None, None, None, None, None))
         == ["grid-cols-1", "xs:grid-cols-1", "sm:grid-cols-1", "md:grid-cols-2", "lg:grid-cols-3", "xl:grid-cols-4"]
  {
    assert IntToString(1) == "1" && IntToString(2) == "2";
    assert IntToString(3) == "3" && IntToString(4) == "4";
    assert GridCols(1) == "grid-cols-1" && GridCols(2) == "grid-cols-2";
    assert GridCols(3) == "grid-cols-3" && GridCols(4) == "grid-cols-4";
    assert "xs:" + "grid-cols-1" == "xs:grid-cols-1" && "sm:" + "grid-cols-1" == "sm:grid-cols-1";
    assert "md:" + "grid-cols-2" == "md:grid-cols-2" && "lg:" + "grid-cols-3" == "lg:grid-cols-3";
    assert "xl:" + "grid-cols-4" == "xl:grid-cols-4";
  }

  /** With nothing given, the text grows from text-sm to text-2xl. */
  lemma TextWithNothingGiven()
    ensures TextClasses(Sizes(None, None, None, None, None))
         == ["text-sm", "xs:text-sm", "sm:text-base", "md:text-lg", "lg:text-xl", "xl:text-2xl"]
  {
    assert "xs:" + "text-sm" == "xs:text-sm" && "sm:" + "text-base" == "sm:text-base";
    assert "md:" + "text-lg" == "md:text-lg" && "lg:" + "text-xl" == "lg:text-xl";
    assert "xl:" + "text-2xl" == "xl:text-2xl";
  }
}
