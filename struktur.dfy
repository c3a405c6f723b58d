/**
 * The directory-tree emitter of struktur.py: a depth-first walk that writes one indented header
 * line per directory or file, in ascending order of name within each directory, and inlines the
 * lines of every file (or one placeholder line when reading fails).
 *
 * The filesystem is a value: a directory is its listing, a file is what reading it yields.
 * The output file is a `Sink` object whose `written` field is the append-only sequence of strings
 * passed to `write`.
 */
module Struktur {
  import opened Strings

  /** A filesystem entry as `os.listdir` / `os.path.isdir` / `open` see it. */
  datatype Entry =
    | Dir(name: string, children: seq<Entry>)
    | File(name: string, contents: Contents)

  /** The outcome of `for line in open(...)`: every line (each with its own terminator, the last
      possibly without), or the lines read before the exception whose text is `error`
      (an `open` that fails has read no line). */
  datatype Contents =
    | Readable(lines: seq<string>)
    | Unreadable(readBefore: seq<string>, error: string)

  // ---------------------------------------------------------------------------------------------
  // Ordering of names: Python compares `str` values code point by code point.

  predicate NameLess(a: string, b: string)
    decreases |a|
  {
    |b| > 0 && (|a| == 0 || a[0] < b[0] || (a[0] == b[0] && NameLess(a[1..], b[1..])))
  }

  predicate NameAtMost(a: string, b: string) { a == b || NameLess(a, b) }

  lemma {:induction false} NameLessIrreflexive(a: string)
    ensures !NameLess(a, a)
    decreases |a|
  {
    if |a| > 0 { NameLessIrreflexive(a[1..]); }
  }

  lemma {:induction false} NameLessTotal(a: string, b: string)
    ensures a == b || NameLess(a, b) || NameLess(b, a)
    decreases |a|
  {
    if |a| > 0 && |b| > 0 && a[0] == b[0] {
      NameLessTotal(a[1..], b[1..]);
      if a[1..] == b[1..] {
        assert a == [a[0]] + a[1..] && b == [b[0]] + b[1..];
      }
    }
  }

  lemma {:induction false} NameLessTransitive(a: string, b: string, c: string)
    requires NameLess(a, b) && NameLess(b, c)
    ensures NameLess(a, c)
    decreases |a|
  {
    if |a| > 0 && a[0] == b[0] && b[0] == c[0] {
      NameLessTransitive(a[1..], b[1..], c[1..]);
    }
  }

  lemma NameAtMostTransitive(a: string, b: string, c: string)
    requires NameAtMost(a, b) && NameAtMost(b, c)
    ensures NameAtMost(a, c)
  {
    if NameLess(a, b) && NameLess(b, c) { NameLessTransitive(a, b, c); }
  }

  /** Entries listed in ascending order of name. */
  predicate SortedByName(es: seq<Entry>) {
    forall i :: 0 < i < |es| ==> InOrderAt(es, i)
  }

  /** The entry at `i` does not come before its predecessor. */
  predicate InOrderAt(es: seq<Entry>, i: nat)
    requires 0 < i < |es|
  {
    NameAtMost(es[i - 1].name, es[i].name)
  }

  lemma SortedTail(es: seq<Entry>)
    requires SortedByName(es) && |es| > 0
    ensures SortedByName(es[1..])
  {
    forall i | 0 < i < |es| - 1
      ensures InOrderAt(es[1..], i)
    {
      assert InOrderAt(es, i + 1);
    }
  }

  lemma SortedCons(e: Entry, es: seq<Entry>)
    requires SortedByName(es)
    requires |es| == 0 || NameAtMost(e.name, es[0].name)
    ensures SortedByName([e] + es)
  {
    var r := [e] + es;
    forall i | 1 < i < |r|
      ensures InOrderAt(r, i)
    {
      assert InOrderAt(es, i - 1);
    }
  }

  /** Inserts `e` before the first entry whose name is not smaller than its own. */
  function Insert(e: Entry, sorted: seq<Entry>): seq<Entry> {
    if |sorted| == 0 || NameAtMost(e.name, sorted[0].name) then [e] + sorted
    else [sorted[0]] + Insert(e, sorted[1..])
  }

  lemma {:induction false} InsertKeepsOrder(e: Entry, sorted: seq<Entry>)
    requires SortedByName(sorted)
    ensures SortedByName(Insert(e, sorted))
    ensures multiset(Insert(e, sorted)) == multiset(sorted) + multiset{e}
    ensures Insert(e, sorted)[0] == e || (|sorted| > 0 && Insert(e, sorted)[0] == sorted[0])
  {
    if |sorted| == 0 || NameAtMost(e.name, sorted[0].name) {
      SortedCons(e, sorted);
    } else {
      NameLessTotal(e.name, sorted[0].name);
      SortedTail(sorted);
      InsertKeepsOrder(e, sorted[1..]);
      var rest := Insert(e, sorted[1..]);
      assert |sorted| > 1 ==> InOrderAt(sorted, 1);
      SortedCons(sorted[0], rest);
      assert sorted == [sorted[0]] + sorted[1..];
    }
  }

  /** `sorted(os.listdir(folder))`: insertion sort by name. */
  function SortByName(es: seq<Entry>): seq<Entry> {
    if |es| == 0 then [] else Insert(es[0], SortByName(es[1..]))
  }

  /** The listing is visited in ascending order of name, and every entry exactly once. */
  lemma {:induction false} SortByNameSorts(es: seq<Entry>)
    ensures SortedByName(SortByName(es))
    ensures multiset(SortByName(es)) == multiset(es)
  {
    if |es| > 0 {
      SortByNameSorts(es[1..]);
      InsertKeepsOrder(es[0], SortByName(es[1..]));
      assert es == [es[0]] + es[1..];
    }
  }

  // ---------------------------------------------------------------------------------------------
  // Sizes: one per directory and file; the measure of the recursion.

  function Size(e: Entry): nat {
    match e
    case Dir(_, children) => 1 + SizeAll(children)
    case File(_, _) => 1
  }

  function SizeAll(es: seq<Entry>): nat {
    if |es| == 0 then 0 else Size(es[0]) + SizeAll(es[1..])
  }

  function CountDirs(es: seq<Entry>): nat {
    if |es| == 0 then 0
    else (match es[0] case Dir(_, ch) => 1 + CountDirs(ch) case File(_, _) => 0) + CountDirs(es[1..])
  }

  function CountFiles(es: seq<Entry>): nat {
    if |es| == 0 then 0
    else (match es[0] case Dir(_, ch) => CountFiles(ch) case File(_, _) => 1) + CountFiles(es[1..])
  }

  lemma {:induction false} SizeAllAppend(a: seq<Entry>, b: seq<Entry>)
    ensures SizeAll(a + b) == SizeAll(a) + SizeAll(b)
    ensures CountDirs(a + b) == CountDirs(a) + CountDirs(b)
    ensures CountFiles(a + b) == CountFiles(a) + CountFiles(b)
  {
    if |a| > 0 {
      assert (a + b)[1..] == a[1..] + b;
      SizeAllAppend(a[1..], b);
    } else {
      assert a + b == b;
    }
  }

  lemma {:induction false} SizeAllInsert(e: Entry, sorted: seq<Entry>)
    ensures SizeAll(Insert(e, sorted)) == Size(e) + SizeAll(sorted)
    ensures CountDirs(Insert(e, sorted)) == CountDirs([e]) + CountDirs(sorted)
    ensures CountFiles(Insert(e, sorted)) == CountFiles([e]) + CountFiles(sorted)
  {
    if |sorted| > 0 && !NameAtMost(e.name, sorted[0].name) {
      SizeAllInsert(e, sorted[1..]);
    } else {
      SizeAllAppend([e], sorted);
    }
  }

  /** Sorting a listing changes neither its size nor its number of directories and files. */
  lemma {:induction false} SizeAllSort(es: seq<Entry>)
    ensures SizeAll(SortByName(es)) == SizeAll(es)
    ensures CountDirs(SortByName(es)) == CountDirs(es)
    ensures CountFiles(SortByName(es)) == CountFiles(es)
  {
    if |es| > 0 {
      SizeAllSort(es[1..]);
      SizeAllInsert(es[0], SortByName(es[1..]));
      SizeAllAppend([es[0]], es[1..]);
      assert [es[0]] + es[1..] == es;
    }
  }

  lemma {:induction false} SizeAllCountsEntries(es: seq<Entry>)
    ensures SizeAll(es) == CountDirs(es) + CountFiles(es)
    decreases SizeAll(es), 1
  {
    if |es| > 0 {
      SizeOfEach(es, 0);
      SizeAllCountsEntries(es[1..]);
      match es[0]
      case Dir(_, ch) => SizeAllCountsEntries(ch);
      case File(_, _) =>
    }
  }

  lemma {:induction false} SizeOfEach(es: seq<Entry>, k: nat)
    requires k < |es|
    ensures Size(es[k]) <= SizeAll(es)
    ensures Size(es[k]) >= 1
  {
    if k > 0 { SizeOfEach(es[1..], k - 1); }
  }

  // ---------------------------------------------------------------------------------------------
  // Paths

  /** `os.path.join(base, name)` on POSIX. */
  function JoinPath(base: string, name: string): (r: string)
    ensures EndsWith(r, name)
  {
    if |name| > 0 && name[0] == '/' then name
    else if |base| == 0 || base[|base| - 1] == '/' then base + name
    else base + ['/'] + name
  }

  /** `p.replace("\\", "/")`: every backslash becomes a slash. */
  function Normalize(p: string): (r: string)
    ensures |r| == |p|
    ensures '\\' !in r
    ensures forall i :: 0 <= i < |p| ==> r[i] == (if p[i] == '\\' then '/' else p[i])
  {
    if |p| == 0 then "" else [if p[0] == '\\' then '/' else p[0]] + Normalize(p[1..])
  }

  /** `input(...).rstrip("/")` */
  function StripTrailingSlashes(s: string): (r: string)
    ensures StartsWith(s, r)
    ensures !EndsWith(r, "/")
    ensures forall i :: |r| <= i < |s| ==> s[i] == '/'
  {
    if |s| > 0 && s[|s| - 1] == '/' then StripTrailingSlashes(s[..|s| - 1]) else s
  }

  // ---------------------------------------------------------------------------------------------
  // What the walk writes

  /** One `write` call of the walk. */
  datatype Line =
    | Header(depth: nat, isDir: bool, path: string)
    | Content(depth: nat, text: string)
    | Placeholder(depth: nat, error: string)

  function Indent(depth: nat): (r: string)
    ensures |r| == 4 * depth
    ensures forall i :: 0 <= i < |r| ==> r[i] == ' '
  {
    if depth == 0 then "" else "    " + Indent(depth - 1)
  }

  function Marker(isDir: bool): string {
    if isDir then "\U{1F4C1} " else "\U{1F4C4} "
  }

  function Render(l: Line): string {
    match l
    case Header(d, isDir, path) => Indent(d) + Marker(isDir) + path + (if isDir then "/\n" else ":\n")
    case Content(d, text) => Indent(d) + text
    case Placeholder(d, error) => Indent(d) + "[Tidak bisa membaca file: " + error + "]\n"
  }

  function RenderAll(ls: seq<Line>): (r: seq<string>)
    ensures |r| == |ls|
    ensures forall k :: 0 <= k < |ls| ==> r[k] == Render(ls[k])
  {
    if |ls| == 0 then [] else [Render(ls[0])] + RenderAll(ls[1..])
  }

  lemma RenderAllAppend(a: seq<Line>, b: seq<Line>)
    ensures RenderAll(a + b) == RenderAll(a) + RenderAll(b)
  {
  }

  function ContentLines(lines: seq<string>, depth: nat): (r: seq<Line>)
    ensures |r| == |lines|
    ensures forall k :: 0 <= k < |r| ==> r[k] == Content(depth, lines[k])
  {
    if |lines| == 0 then [] else [Content(depth, lines[0])] + ContentLines(lines[1..], depth)
  }

  function FileBody(c: Contents, depth: nat): seq<Line> {
    match c
    case Readable(lines) => ContentLines(lines, depth)
    case Unreadable(before, error) => ContentLines(before, depth) + [Placeholder(depth, error)]
  }

  /** The lines written for the entries `items` (already in visiting order) of the folder whose
      path, as passed down the recursion, is `base`. */
  function EmitListing(items: seq<Entry>, base: string, depth: nat): seq<Line>
    decreases SizeAll(items), 1
  {
    if |items| == 0 then []
    else
      SizeOfEach(items, 0);
      EmitEntry(items[0], base, depth) + EmitListing(items[1..], base, depth)
  }

  /** The lines written for one entry of the folder `base`, found at `depth`: its header, then
      either the whole subtree of a directory or the body of a file, one level deeper. */
  function EmitEntry(e: Entry, base: string, depth: nat): seq<Line>
    decreases Size(e), 0
  {
    var path := JoinPath(base, e.name);
    match e
    case Dir(_, children) => [Header(depth, true, Normalize(path))] + EmitFolder(children, path, depth + 1)
    case File(_, contents) => [Header(depth, false, Normalize(path))] + FileBody(contents, depth + 1)
  }

  /** The lines written by `print_structure_and_code` for a folder whose listing is `folder`. */
  function EmitFolder(folder: seq<Entry>, base: string, depth: nat): seq<Line>
    decreases SizeAll(folder), 2
  {
    SizeAllSort(folder);
    EmitListing(SortByName(folder), base, depth)
  }

  lemma EmitListingUnfold(items: seq<Entry>, base: string, depth: nat)
    requires |items| > 0
    ensures EmitListing(items, base, depth) == EmitEntry(items[0], base, depth) + EmitListing(items[1..], base, depth)
  {
  }

  lemma {:induction false} EmitListingAppend(a: seq<Entry>, b: seq<Entry>, base: string, depth: nat)
    ensures EmitListing(a + b, base, depth) == EmitListing(a, base, depth) + EmitListing(b, base, depth)
  {
    if |a| > 0 {
      var ab := a + b;
      assert ab[1..] == a[1..] + b;
      assert ab[0] == a[0];
      var e := EmitEntry(a[0], base, depth);
      var y := EmitListing(a[1..], base, depth);
      var z := EmitListing(b, base, depth);
      var w := EmitListing(a[1..] + b, base, depth);
      EmitListingAppend(a[1..], b, base, depth);
      assert w == y + z;
      EmitListingUnfold(ab, base, depth);
      assert EmitListing(ab, base, depth) == e + w;
      EmitListingUnfold(a, base, depth);
      assert EmitListing(a, base, depth) == e + y;
      ConcatAssoc(e, y, z);
    } else {
      assert a + b == b;
    }
  }

  /** One more entry of the listing adds exactly that entry's lines. */
  lemma ListingStep(items: seq<Entry>, k: nat, base: string, depth: nat)
    requires k < |items|
    ensures RenderAll(EmitListing(items[..k + 1], base, depth))
         == RenderAll(EmitListing(items[..k], base, depth)) + RenderAll(EmitEntry(items[k], base, depth))
  {
    var single := [items[k]];
    assert items[..k + 1] == items[..k] + single;
    EmitListingAppend(items[..k], single, base, depth);
    EmitListingUnfold(single, base, depth);
    assert single[1..] == [];
    var e := EmitEntry(items[k], base, depth);
    assert EmitListing(single, base, depth) == e + [];
    assert e + [] == e;
    RenderAllAppend(EmitListing(items[..k], base, depth), e);
  }

  lemma ContentStep(lines: seq<string>, j: nat, depth: nat)
    requires j < |lines|
    ensures RenderAll(ContentLines(lines[..j + 1], depth))
         == RenderAll(ContentLines(lines[..j], depth)) + [Indent(depth) + lines[j]]
  {
    var a := ContentLines(lines[..j], depth);
    var b := ContentLines(lines[..j + 1], depth);
    assert b == a + [Content(depth, lines[j])];
    RenderAllAppend(a, [Content(depth, lines[j])]);
  }

  /** What a directory entry renders to: its header, then its folder one level deeper. */
  lemma RenderDirEntry(e: Entry, base: string, depth: nat)
    requires e.Dir?
    ensures RenderAll(EmitEntry(e, base, depth))
         == [Indent(depth) + Marker(true) + Normalize(JoinPath(base, e.name)) + "/\n"]
            + RenderAll(EmitFolder(e.children, JoinPath(base, e.name), depth + 1))
  {
    var path := JoinPath(base, e.name);
    var h := Header(depth, true, Normalize(path));
    var rest := EmitFolder(e.children, path, depth + 1);
    assert EmitEntry(e, base, depth) == [h] + rest;
    RenderAllAppend([h], rest);
  }

  /** What a file entry renders to: its header, then the body of the file one level deeper. */
  lemma RenderFileEntry(e: Entry, base: string, depth: nat)
    requires e.File?
    ensures RenderAll(EmitEntry(e, base, depth))
         == [Indent(depth) + Marker(false) + Normalize(JoinPath(base, e.name)) + ":\n"]
            + RenderAll(FileBody(e.contents, depth + 1))
  {
    var h := Header(depth, false, Normalize(JoinPath(base, e.name)));
    var body := FileBody(e.contents, depth + 1);
    assert EmitEntry(e, base, depth) == [h] + body;
    RenderAllAppend([h], body);
  }

  // ---------------------------------------------------------------------------------------------
  // Properties of what the walk writes

  /** Number of header lines for directories (`isDir`) or for files. */
  function CountHeaders(ls: seq<Line>, isDir: bool): nat {
    if |ls| == 0 then 0
    else (if ls[0].Header? && ls[0].isDir == isDir then 1 else 0) + CountHeaders(ls[1..], isDir)
  }

  lemma {:induction false} CountHeadersAppend(a: seq<Line>, b: seq<Line>, isDir: bool)
    ensures CountHeaders(a + b, isDir) == CountHeaders(a, isDir) + CountHeaders(b, isDir)
  {
    if |a| > 0 {
      assert (a + b)[1..] == a[1..] + b;
      CountHeadersAppend(a[1..], b, isDir);
    } else {
      assert a + b == b;
    }
  }

  lemma {:induction false} CountHeadersContent(lines: seq<string>, depth: nat, isDir: bool)
    ensures CountHeaders(ContentLines(lines, depth), isDir) == 0
  {
    if |lines| > 0 {
      var cl := ContentLines(lines, depth);
      assert cl[1..] == ContentLines(lines[1..], depth);
      CountHeadersContent(lines[1..], depth, isDir);
    }
  }

  lemma CountHeadersFileBody(c: Contents, depth: nat, isDir: bool)
    ensures CountHeaders(FileBody(c, depth), isDir) == 0
  {
    match c
    case Readable(lines) => CountHeadersContent(lines, depth, isDir);
    case Unreadable(before, error) =>
      CountHeadersContent(before, depth, isDir);
      CountHeadersAppend(ContentLines(before, depth), [Placeholder(depth, error)], isDir);
  }

  /** One header per directory and one per file of the whole tree below the folder. */
  lemma {:induction false} FolderHeaderCounts(folder: seq<Entry>, base: string, depth: nat)
    ensures CountHeaders(EmitFolder(folder, base, depth), true) == CountDirs(folder)
    ensures CountHeaders(EmitFolder(folder, base, depth), false) == CountFiles(folder)
    decreases SizeAll(folder), 2
  {
    SizeAllSort(folder);
    ListingHeaderCounts(SortByName(folder), base, depth);
  }

  lemma {:induction false} ListingHeaderCounts(items: seq<Entry>, base: string, depth: nat)
    ensures CountHeaders(EmitListing(items, base, depth), true) == CountDirs(items)
    ensures CountHeaders(EmitListing(items, base, depth), false) == CountFiles(items)
    decreases SizeAll(items), 1
  {
    if |items| > 0 {
      SizeOfEach(items, 0);
      var e := EmitEntry(items[0], base, depth);
      var rest := EmitListing(items[1..], base, depth);
      EntryHeaderCounts(items[0], base, depth);
      ListingHeaderCounts(items[1..], base, depth);
      EmitListingUnfold(items, base, depth);
      CountHeadersAppend(e, rest, true);
      CountHeadersAppend(e, rest, false);
      SizeAllAppend([items[0]], items[1..]);
      assert [items[0]] + items[1..] == items;
    }
  }

  lemma {:induction false} EntryHeaderCounts(e: Entry, base: string, depth: nat)
    ensures CountHeaders(EmitEntry(e, base, depth), true) == CountDirs([e])
    ensures CountHeaders(EmitEntry(e, base, depth), false) == CountFiles([e])
    decreases Size(e), 0
  {
    var path := JoinPath(base, e.name);
    var h := Header(depth, e.Dir?, Normalize(path));
    assert [e][1..] == [];
    match e
    case Dir(_, children) =>
      var rest := EmitFolder(children, path, depth + 1);
      assert EmitEntry(e, base, depth) == [h] + rest;
      FolderHeaderCounts(children, path, depth + 1);
      CountHeadersAppend([h], rest, true);
      CountHeadersAppend([h], rest, false);
    case File(_, contents) =>
      var rest := FileBody(contents, depth + 1);
      assert EmitEntry(e, base, depth) == [h] + rest;
      CountHeadersFileBody(contents, depth + 1, true);
      CountHeadersFileBody(contents, depth + 1, false);
      CountHeadersAppend([h], rest, true);
      CountHeadersAppend([h], rest, false);
  }

  /** Every line is at `depth` or deeper. */
  predicate AtLeastDepth(ls: seq<Line>, depth: nat) {
    forall k :: 0 <= k < |ls| ==> ls[k].depth >= depth
  }

  lemma AtLeastDepthAppend(a: seq<Line>, b: seq<Line>, depth: nat)
    requires AtLeastDepth(a, depth) && AtLeastDepth(b, depth)
    ensures AtLeastDepth(a + b, depth)
  {
    forall k | 0 <= k < |a + b|
      ensures (a + b)[k].depth >= depth
    {
      if k >= |a| { assert (a + b)[k] == b[k - |a|]; }
    }
  }

  /** The lines at exactly `depth`, in order. */
  function Level(ls: seq<Line>, depth: nat): seq<Line> {
    if |ls| == 0 then []
    else (if ls[0].depth == depth then [ls[0]] else []) + Level(ls[1..], depth)
  }

  lemma {:induction false} LevelAppend(a: seq<Line>, b: seq<Line>, depth: nat)
    ensures Level(a + b, depth) == Level(a, depth) + Level(b, depth)
  {
    if |a| > 0 {
      assert (a + b)[1..] == a[1..] + b;
      LevelAppend(a[1..], b, depth);
      ConcatAssoc(if a[0].depth == depth then [a[0]] else [], Level(a[1..], depth), Level(b, depth));
    } else {
      assert a + b == b;
    }
  }

  lemma {:induction false} LevelOfDeeper(ls: seq<Line>, depth: nat)
    requires AtLeastDepth(ls, depth + 1)
    ensures Level(ls, depth) == []
  {
    if |ls| > 0 {
      assert ls[0].depth >= depth + 1;
      LevelOfDeeper(ls[1..], depth);
    }
  }

  lemma ContentDepth(lines: seq<string>, depth: nat)
    ensures AtLeastDepth(ContentLines(lines, depth), depth)
  {
  }

  lemma FileBodyDepth(c: Contents, depth: nat)
    ensures AtLeastDepth(FileBody(c, depth), depth)
  {
  }

  /** The headers the folder's own entries get, in the order they are visited. */
  function HeadersOf(items: seq<Entry>, base: string, depth: nat): (r: seq<Line>)
    ensures |r| == |items|
    ensures forall k :: 0 <= k < |items| ==>
      r[k] == Header(depth, items[k].Dir?, Normalize(JoinPath(base, items[k].name)))
  {
    if |items| == 0 then []
    else [Header(depth, items[0].Dir?, Normalize(JoinPath(base, items[0].name)))] + HeadersOf(items[1..], base, depth)
  }

  /** An entry's block: its own header at `depth`, then only deeper lines (its subtree or its
      body), so the next line at `depth` belongs to the next sibling. */
  lemma {:induction false} EntryBlock(e: Entry, base: string, depth: nat)
    ensures |EmitEntry(e, base, depth)| > 0
    ensures EmitEntry(e, base, depth)[0] == Header(depth, e.Dir?, Normalize(JoinPath(base, e.name)))
    ensures AtLeastDepth(EmitEntry(e, base, depth)[1..], depth + 1)
    ensures Level(EmitEntry(e, base, depth), depth) == [EmitEntry(e, base, depth)[0]]
    decreases Size(e), 0
  {
    var path := JoinPath(base, e.name);
    var h := Header(depth, e.Dir?, Normalize(path));
    var rest := if e.Dir? then EmitFolder(e.children, path, depth + 1) else FileBody(e.contents, depth + 1);
    assert EmitEntry(e, base, depth) == [h] + rest;
    assert ([h] + rest)[1..] == rest;
    if e.Dir? {
      FolderLevels(e.children, path, depth + 1);
    } else {
      FileBodyDepth(e.contents, depth + 1);
    }
    LevelOfDeeper(rest, depth);
    LevelAppend([h], rest, depth);
    assert Level([h], depth) == [h];
  }

  /** Every line written for a folder is at least as deep as its entries, and the lines at exactly
      that depth are the headers of its entries in ascending order of name. */
  lemma {:induction false} FolderLevels(folder: seq<Entry>, base: string, depth: nat)
    ensures AtLeastDepth(EmitFolder(folder, base, depth), depth)
    ensures Level(EmitFolder(folder, base, depth), depth) == HeadersOf(SortByName(folder), base, depth)
    decreases SizeAll(folder), 2
  {
    SizeAllSort(folder);
    ListingLevels(SortByName(folder), base, depth);
  }

  lemma {:induction false} ListingLevels(items: seq<Entry>, base: string, depth: nat)
    ensures AtLeastDepth(EmitListing(items, base, depth), depth)
    ensures Level(EmitListing(items, base, depth), depth) == HeadersOf(items, base, depth)
    decreases SizeAll(items), 1
  {
    if |items| > 0 {
      SizeOfEach(items, 0);
      EntryBlock(items[0], base, depth);
      ListingLevels(items[1..], base, depth);
      ListingLevelsStep(items, base, depth);
    }
  }

  lemma ListingLevelsStep(items: seq<Entry>, base: string, depth: nat)
    requires |items| > 0
    requires |EmitEntry(items[0], base, depth)| > 0
    requires AtLeastDepth(EmitEntry(items[0], base, depth)[1..], depth + 1)
    requires EmitEntry(items[0], base, depth)[0] == Header(depth, items[0].Dir?, Normalize(JoinPath(base, items[0].name)))
    requires Level(EmitEntry(items[0], base, depth), depth) == [EmitEntry(items[0], base, depth)[0]]
    requires AtLeastDepth(EmitListing(items[1..], base, depth), depth)
    requires Level(EmitListing(items[1..], base, depth), depth) == HeadersOf(items[1..], base, depth)
    ensures AtLeastDepth(EmitListing(items, base, depth), depth)
    ensures Level(EmitListing(items, base, depth), depth) == HeadersOf(items, base, depth)
  {
    var e := EmitEntry(items[0], base, depth);
    var rest := EmitListing(items[1..], base, depth);
    EmitListingUnfold(items, base, depth);
    LevelAppend(e, rest, depth);
    assert AtLeastDepth(e, depth) by {
      assert e == [e[0]] + e[1..];
    }
    AtLeastDepthAppend(e, rest, depth);
  }

  /** A readable file contributes its lines verbatim; an unreadable one the lines read before
      the failure and then exactly one placeholder, as its last line. */
  lemma FileBodyShape(c: Contents, depth: nat)
    ensures c.Readable? ==> RenderAll(FileBody(c, depth)) == IndentAll(c.lines, depth)
    ensures c.Unreadable? ==>
      RenderAll(FileBody(c, depth))
      == IndentAll(c.readBefore, depth) + [Indent(depth) + "[Tidak bisa membaca file: " + c.error + "]\n"]
  {
    match c
    case Readable(lines) =>
    case Unreadable(before, error) =>
      RenderAllAppend(ContentLines(before, depth), [Placeholder(depth, error)]);
  }

  /** Each line of a file prefixed with the indentation of `depth`. */
  function IndentAll(lines: seq<string>, depth: nat): (r: seq<string>)
    ensures |r| == |lines|
    ensures forall k :: 0 <= k < |lines| ==> r[k] == Indent(depth) + lines[k]
  {
    if |lines| == 0 then [] else [Indent(depth) + lines[0]] + IndentAll(lines[1..], depth)
  }

  // ---------------------------------------------------------------------------------------------
  // The walk itself

  /** The output file: `written` is everything passed to `write`, in order. */
  class Sink {
    var written: seq<string>

    constructor ()
      ensures written == []
    {
      written := [];
    }

    method Write(s: string)
      modifies this
      ensures written == old(written) + [s]
    {
      written := written + [s];
    }

    /** Opening with mode 'w' truncates the file. */
    method Truncate()
      modifies this
      ensures written == []
    {
      written := [];
    }
  }

  /** `print_structure_and_code(folder_path, indent, full_path, output_file)`: `folder` is the
      listing of `folder_path`, `fullPath` the path printed for it. */
  method PrintStructureAndCode(folder: seq<Entry>, indent: nat, fullPath: string, sink: Sink)
    modifies sink
    ensures sink.written == old(sink.written) + RenderAll(EmitFolder(folder, fullPath, indent))
    decreases SizeAll(folder)
  {
    var items := SortByName(folder);
    SizeAllSort(folder);
    for k := 0 to |items|
      invariant sink.written == old(sink.written) + RenderAll(EmitListing(items[..k], fullPath, indent))
    {
      var item := items[k];
      var fullPathItem := JoinPath(fullPath, item.name);
      var relativePath := Normalize(fullPathItem);
      var prefix := Indent(indent) + Marker(item.Dir?);
      ghost var before := sink.written;
      if item.Dir? {
        sink.Write(prefix + relativePath + "/\n");
        SizeOfEach(items, k);
        PrintStructureAndCode(item.children, indent + 1, fullPathItem, sink);
        RenderDirEntry(item, fullPath, indent);
        ConcatAssoc(before, [prefix + relativePath + "/\n"],
          RenderAll(EmitFolder(item.children, fullPathItem, indent + 1)));
      } else {
        var header := prefix + relativePath + ":\n";
        sink.Write(header);
        WriteFileBody(item.contents, indent + 1, sink);
        RenderFileEntry(item, fullPath, indent);
        ConcatAssoc(before, [header], RenderAll(FileBody(item.contents, indent + 1)));
      }
      ListingStep(items, k, fullPath, indent);
      ConcatAssoc(old(sink.written), RenderAll(EmitListing(items[..k], fullPath, indent)),
        RenderAll(EmitEntry(item, fullPath, indent)));
    }
    assert items[..|items|] == items;
  }

  /** Lines 18-25: the lines of the file one level deeper than its header, in order, followed by
      the placeholder when reading fails. */
  method WriteFileBody(contents: Contents, depth: nat, sink: Sink)
    modifies sink
    ensures sink.written == old(sink.written) + RenderAll(FileBody(contents, depth))
  {
    var lines := if contents.Readable? then contents.lines else contents.readBefore;
    for j := 0 to |lines|
      invariant sink.written == old(sink.written) + RenderAll(ContentLines(lines[..j], depth))
    {
      ContentStep(lines, j, depth);
      ConcatAssoc(old(sink.written), RenderAll(ContentLines(lines[..j], depth)), [Indent(depth) + lines[j]]);
      sink.Write(Indent(depth) + lines[j]);
    }
    assert lines[..|lines|] == lines;
    if contents.Unreadable? {
      var placeholder := Indent(depth) + "[Tidak bisa membaca file: " + contents.error + "]\n";
      sink.Write(placeholder);
      RenderAllAppend(ContentLines(lines, depth), [Placeholder(depth, contents.error)]);
      ConcatAssoc(old(sink.written), RenderAll(ContentLines(lines, depth)), [placeholder]);
    }
  }

  /** Lines 28-31: the root path typed by the user loses its trailing slashes, the output file
      is truncated, and the walk starts at depth 0 with the root as printed path. */
  method RunScript(typedRoot: string, root: seq<Entry>, sink: Sink)
    modifies sink
    ensures sink.written == RenderAll(EmitFolder(root, StripTrailingSlashes(typedRoot), 0))
  {
    var folderPath := StripTrailingSlashes(typedRoot);
    sink.Truncate();
    PrintStructureAndCode(root, 0, folderPath, sink);
  }
}
