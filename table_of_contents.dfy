/**
  The table of contents of src/components/TableOfContents.tsx: each heading
  depth maps to a left-margin class and a text-size class, and each heading
  becomes one list entry whose class joins the two with a space and whose link
  points at `#slug`.
 */
module TableOfContents {

  /** `getLeftMargin`: from h3 to h6 the class `ml-N` with N = 2 * (depth - 2),
      and no class for every other depth. */
  function LeftMargin(depth: int): (cls: string)
    ensures 3 <= depth <= 6 ==> cls == "ml-" + [(('0' as int) + 2 * (depth - 2)) as char]
    ensures !(3 <= depth <= 6) ==> cls == ""
  {
    match depth
    case 3 => "ml-2"
    case 4 => "ml-4"
    case 5 => "ml-6"
    case 6 => "ml-8"
    case _ => ""
  }

  /** `getTextSize`: a `text-*` utility exactly for depths 2 to 6, no class otherwise. */
  function TextSize(depth: int): (cls: string)
    ensures cls == "" <==> !(2 <= depth <= 6)
    ensures cls != "" ==> |cls| == 7 && cls[..5] == "text-"
  {
    match depth
    case 2 => "text-lg"
    case 3 => "text-md"
    case 4 => "text-sm"
    case 5 => "text-xs"
    case 6 => "text-xs"
    case _ => ""
  }

  /** Reads a margin class back: the step count of an `ml-N` class with one
      digit N, and 0 for anything else (including no class). */
  function MarginSteps(cls: string): nat
  {
    if |cls| == 4 && cls[..3] == "ml-" && '0' <= cls[3] <= '9' then (cls[3] as int) - ('0' as int) else 0
  }

  /** Reads a text-size class back as a rank, larger for larger text, 0 for no class. */
  function SizeRank(cls: string): nat
  {
    if cls == "text-lg" then 4
    else if cls == "text-md" then 3
    else if cls == "text-sm" then 2
    else if cls == "text-xs" then 1
    else 0
  }

  /** The margin of depths 2 to 6 is 2 * (depth - 2) steps; depth 2 has no class. */
  lemma MarginFormula(depth: int)
    requires 2 <= depth <= 6
    ensures MarginSteps(LeftMargin(depth)) == 2 * (depth - 2)
    ensures depth == 2 ==> LeftMargin(depth) == ""
  {
  }

  /** A deeper heading is indented strictly further, from h2 to h6. */
  lemma IndentIncreases(shallow: int, deep: int)
    requires 2 <= shallow < deep <= 6
    ensures MarginSteps(LeftMargin(shallow)) < MarginSteps(LeftMargin(deep))
  {
    MarginFormula(shallow);
    MarginFormula(deep);
  }

  /** A deeper heading never has larger text; from h2 to h5 it has strictly
      smaller text, and h5 and h6 share the smallest size. */
  lemma TextShrinks(shallow: int, deep: int)
    requires 2 <= shallow < deep <= 6
    ensures SizeRank(TextSize(deep)) <= SizeRank(TextSize(shallow))
    ensures deep <= 5 ==> SizeRank(TextSize(deep)) < SizeRank(TextSize(shallow))
    ensures SizeRank(TextSize(deep)) == SizeRank(TextSize(shallow)) <==> shallow == 5 && deep == 6
  {
  }

  /** The fields of an Astro `MarkdownHeading` that the component reads. */
  datatype Heading = Heading(depth: int, slug: string, text: string)

  /** One rendered `<li>`: its class, its link target and its link text. */
  datatype Entry = Entry(classes: string, href: string, text: string)

  /** Splits a class string at its first space: the text before and the text after. */
  function SplitAtSpace(s: string): (string, string)
  {
    if s == [] then ([], [])
    else if s[0] == ' ' then ([], s[1..])
    else var (before, after) := SplitAtSpace(s[1..]); ([s[0]] + before, after)
  }

  lemma {:induction false} SplitAfterSpaceless(a: string, b: string)
    requires forall i :: 0 <= i < |a| ==> a[i] != ' '
    ensures SplitAtSpace(a + " " + b) == (a, b)
  {
    if a == [] {
      assert a + " " + b == [' '] + b;
    } else {
      var s := a + " " + b;
      assert s[0] == a[0] && s[1..] == a[1..] + " " + b;
      SplitAfterSpaceless(a[1..], b);
      assert [a[0]] + a[1..] == a;
    }
  }

  /** One `<li>` per heading: its class splits at the first space back into
      the heading's margin class and size class, its link is `#` followed by
      the slug, and its text is the heading's text. */
  function EntryFor(h: Heading): (e: Entry)
    ensures SplitAtSpace(e.classes) == (LeftMargin(h.depth), TextSize(h.depth))
    ensures |e.href| == |h.slug| + 1 && e.href[0] == '#' && e.href[1..] == h.slug
    ensures |e.classes| == |LeftMargin(h.depth)| + 1 + |TextSize(h.depth)|
    ensures e.text == h.text
  {
    SplitAfterSpaceless(LeftMargin(h.depth), TextSize(h.depth));
    Entry(LeftMargin(h.depth) + " " + TextSize(h.depth), "#" + h.slug, h.text)
  }

  /** The `<For>` over the headings: one entry per heading, in order. */
  function Entries(headings: seq<Heading>): (entries: seq<Entry>)
    ensures |entries| == |headings|
    ensures forall i :: 0 <= i < |headings| ==> entries[i] == EntryFor(headings[i])
  {
    if headings == [] then [] else [EntryFor(headings[0])] + Entries(headings[1..])
  }
}
