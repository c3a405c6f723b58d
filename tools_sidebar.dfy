/**
 * components/tools-sidebar.tsx: the `reduce` that groups the catalogue by category, the
 * name-to-icon lookup and the status colour. `Object.entries` lists keys that are array indices
 * first, in ascending numeric order, and the other string keys in insertion order; no category of
 * the catalogue is an array index (`CatalogueCategoriesNotIndices`), so the groups are listed in
 * the order in which each category first appears.
 */
module ToolsSidebar {
  import opened Tools

  // ---------------------------------------------------------------------------------------------
  // Grouping: the specification, with the catalogue read from its last tool back

  /** The categories of `ts`, each once, in order of first appearance. */
  function Categories(ts: seq<Tool>): seq<string> {
    if |ts| == 0 then []
    else
      var earlier := Categories(ts[..|ts| - 1]);
      var c := ts[|ts| - 1].category;
      if c in earlier then earlier else earlier + [c]
  }

  /** The tools of `ts` in category `c`, in catalogue order. */
  function InCategory(ts: seq<Tool>, c: string): seq<Tool> {
    if |ts| == 0 then []
    else
      var earlier := InCategory(ts[..|ts| - 1], c);
      if ts[|ts| - 1].category == c then earlier + [ts[|ts| - 1]] else earlier
  }

  /** `categoryTools.length` summed over the listed categories. */
  function GroupedCount(ts: seq<Tool>, cats: seq<string>): nat {
    if |cats| == 0 then 0
    else GroupedCount(ts, cats[..|cats| - 1]) + |InCategory(ts, cats[|cats| - 1])|
  }

  predicate Distinct(cats: seq<string>) {
    forall i, j :: 0 <= i < j < |cats| ==> cats[i] != cats[j]
  }

  /** A string `Object.entries` lists ahead of insertion order: the canonical decimal form of an
      integer below 2^32 - 1. */
  predicate IsArrayIndex(s: string) {
    |s| > 0 && (forall k :: 0 <= k < |s| ==> '0' <= s[k] <= '9') && (s[0] == '0' ==> |s| == 1)
    && DecimalValue(s) < 0xFFFF_FFFF
  }

  function DecimalValue(s: string): nat
    requires forall k :: 0 <= k < |s| ==> '0' <= s[k] <= '9'
  {
    if |s| == 0 then 0 else DecimalValue(s[..|s| - 1]) * 10 + (s[|s| - 1] as int - '0' as int)
  }

  /** No category of the catalogue is an array index, so insertion order is the listing order. */
  lemma CatalogueCategoriesNotIndices()
    ensures forall c :: c in Categories(Catalogue) ==> !IsArrayIndex(c)
  {
    CategoriesListed(Catalogue);
    CategoriesAndStatusesKnown();
  }

  // ---------------------------------------------------------------------------------------------
  // The reduce

  /** `tools.reduce(...)`: for each tool, create its category's list on first sight, then push
      the tool. `order` records the keys in insertion order, which is the order
      `Object.entries(toolsByCategory)` lists them in when no key is an array index. */
  method GroupByCategory(ts: seq<Tool>) returns (order: seq<string>, groups: map<string, seq<Tool>>)
    ensures order == Categories(ts)
    ensures forall c :: c in groups <==> c in order
    ensures forall c :: c in groups ==> groups[c] == InCategory(ts, c)
  {
    order := [];
    groups := map[];
    for i := 0 to |ts|
      invariant order == Categories(ts[..i])
      invariant forall c :: c in groups <==> c in order
      invariant forall c :: c in groups ==> groups[c] == InCategory(ts[..i], c)
    {
      var order', groups' := AddTool(order, groups, ts[i]);
      LoopStep(ts, i, order, groups, order', groups');
      order, groups := order', groups';
    }
    assert ts[..|ts|] == ts;
  }

  /** The body of the `reduce` callback. */
  method AddTool(order0: seq<string>, groups0: map<string, seq<Tool>>, tool: Tool)
    returns (order: seq<string>, groups: map<string, seq<Tool>>)
    ensures order == if tool.category in groups0 then order0 else order0 + [tool.category]
    ensures forall c :: c in groups <==> c in groups0 || c == tool.category
    ensures forall c :: c in groups && c != tool.category ==> groups[c] == groups0[c]
    ensures groups[tool.category] ==
      (if tool.category in groups0 then groups0[tool.category] else []) + [tool]
  {
    order, groups := order0, groups0;
    if tool.category !in groups {
      groups := groups[tool.category := []];
      order := order + [tool.category];
    }
    groups := groups[tool.category := groups[tool.category] + [tool]];
  }

  /** The invariant of `GroupByCategory` is kept by `AddTool`. */
  lemma LoopStep(ts: seq<Tool>, i: nat, order0: seq<string>, groups0: map<string, seq<Tool>>,
                 order: seq<string>, groups: map<string, seq<Tool>>)
    requires i < |ts|
    requires order0 == Categories(ts[..i])
    requires forall c :: c in groups0 <==> c in order0
    requires forall c :: c in groups0 ==> groups0[c] == InCategory(ts[..i], c)
    requires order == if ts[i].category in groups0 then order0 else order0 + [ts[i].category]
    requires forall c :: c in groups <==> c in groups0 || c == ts[i].category
    requires forall c :: c in groups && c != ts[i].category ==> groups[c] == groups0[c]
    requires groups[ts[i].category] ==
      (if ts[i].category in groups0 then groups0[ts[i].category] else []) + [ts[i]]
    ensures order == Categories(ts[..i + 1])
    ensures forall c :: c in groups <==> c in order
    ensures forall c :: c in groups ==> groups[c] == InCategory(ts[..i + 1], c)
  {
    GroupingStep(ts, i);
    if ts[i].category !in groups0 {
      NotListedIsEmpty(ts[..i], ts[i].category);
    }
  }

  /** The group of category `c` after `tool` is pushed into its own group. */
  function Pushed(group: seq<Tool>, tool: Tool, c: string): seq<Tool> {
    if tool.category == c then group + [tool] else group
  }

  /** One more tool: only its own category changes. */
  lemma GroupingStep(ts: seq<Tool>, i: nat)
    requires i < |ts|
    ensures var c := ts[i].category;
      Categories(ts[..i + 1]) == if c in Categories(ts[..i]) then Categories(ts[..i]) else Categories(ts[..i]) + [c]
    ensures forall c :: InCategory(ts[..i + 1], c) == Pushed(InCategory(ts[..i], c), ts[i], c)
  {
    assert ts[..i + 1][..i] == ts[..i];
  }

  /** A category that does not appear has no tools. */
  lemma {:induction false} NotListedIsEmpty(ts: seq<Tool>, c: string)
    requires c !in Categories(ts)
    ensures InCategory(ts, c) == []
  {
    if |ts| > 0 {
      NotListedIsEmpty(ts[..|ts| - 1], c);
    }
  }

  // ---------------------------------------------------------------------------------------------
  // What the grouping promises

  /** Every tool is in the group of its own category and in no other group; groups hold only
      tools of the catalogue. */
  lemma {:induction false} GroupMembership(ts: seq<Tool>, c: string)
    ensures forall k :: 0 <= k < |InCategory(ts, c)| ==> InCategory(ts, c)[k].category == c
    ensures forall k :: 0 <= k < |InCategory(ts, c)| ==> InCategory(ts, c)[k] in ts
    ensures forall k :: 0 <= k < |ts| && ts[k].category == c ==> ts[k] in InCategory(ts, c)
  {
    if |ts| > 0 {
      var init := ts[..|ts| - 1];
      GroupMembership(init, c);
      forall k | 0 <= k < |ts| && ts[k].category == c
        ensures ts[k] in InCategory(ts, c)
      {
        if k < |ts| - 1 { assert ts[k] == init[k]; }
      }
      forall k | 0 <= k < |InCategory(ts, c)|
        ensures InCategory(ts, c)[k] in ts
      {
        if k < |InCategory(init, c)| {
          assert InCategory(ts, c)[k] == InCategory(init, c)[k];
          assert InCategory(init, c)[k] in init;
        }
      }
    }
  }

  /** The categories are listed once each, and exactly the categories that occur are listed. */
  lemma {:induction false} CategoriesListed(ts: seq<Tool>)
    ensures Distinct(Categories(ts))
    ensures forall c :: c in Categories(ts) <==> exists k :: 0 <= k < |ts| && ts[k].category == c
  {
    if |ts| > 0 {
      var init := ts[..|ts| - 1];
      CategoriesListed(init);
      forall c | exists k :: 0 <= k < |ts| && ts[k].category == c
        ensures c in Categories(ts)
      {
        var k :| 0 <= k < |ts| && ts[k].category == c;
        if k < |ts| - 1 { assert init[k].category == c; }
      }
      forall c | c in Categories(ts)
        ensures exists k :: 0 <= k < |ts| && ts[k].category == c
      {
        if c in Categories(init) {
          var k :| 0 <= k < |init| && init[k].category == c;
          assert ts[k].category == c;
        } else {
          assert ts[|ts| - 1].category == c;
        }
      }
    }
  }

  /** Adding a tool adds one to the count of the group it belongs to, when that group is listed. */
  lemma {:induction false} CountStep(ts: seq<Tool>, x: Tool, cats: seq<string>)
    requires Distinct(cats)
    ensures GroupedCount(ts + [x], cats) == GroupedCount(ts, cats) + if x.category in cats then 1 else 0
  {
    if |cats| > 0 {
      var init := cats[..|cats| - 1];
      assert Distinct(init);
      CountStep(ts, x, init);
      assert (ts + [x])[..|ts|] == ts;
      assert x.category in cats <==> x.category in init || x.category == cats[|cats| - 1];
    }
  }

  /** The groups together hold exactly as many tools as the catalogue. */
  lemma {:induction false} GroupsCoverCatalogue(ts: seq<Tool>)
    ensures GroupedCount(ts, Categories(ts)) == |ts|
  {
    if |ts| > 0 {
      var init := ts[..|ts| - 1];
      var x := ts[|ts| - 1];
      assert ts == init + [x];
      GroupsCoverCatalogue(init);
      CategoriesListed(init);
      CountStep(init, x, Categories(init));
      if x.category !in Categories(init) {
        NotListedIsEmpty(init, x.category);
        assert Categories(ts) == Categories(init) + [x.category];
        assert (Categories(init) + [x.category])[..|Categories(init)|] == Categories(init);
      }
    }
  }

  // ---------------------------------------------------------------------------------------------
  // Icons and status colours

  datatype Icon = Globe | Shield | Scan | Pickaxe | Sword | Search | FileSearch | AlertTriangle
                | Server | Code | Database | MapIcon | Braces

  /** `iconMap` */
  const IconMap: map<string, Icon> := map[
    "Subdomain Finder" := Globe, "WAF Detector" := Shield, "Port Scanner" := Scan,
    "URL Crawler [FUZZ]" := Pickaxe, "Deep URL Crawler" := Sword, "Whois Lookup" := Search,
    "URL Fuzzer" := FileSearch, "Nuclei" := AlertTriangle, "Nikto" := Server,
    "XSS Exploiter" := Code, "SQLi Exploiter" := Database, "CVE Map" := MapIcon
  ]

  /** `getToolIcon(toolName)`: the mapped icon, or Braces for any other name. */
  function ToolIcon(toolName: string): (r: Icon)
    ensures toolName in IconMap ==> r == IconMap[toolName]
    ensures toolName !in IconMap ==> r == Braces
  {
    if toolName in IconMap then IconMap[toolName] else Braces
  }

  /** Five catalogue tools have no entry in the map and get the default icon: the map names a
      "Port Scanner" where the catalogue has "Nmap Scanner". */
  lemma DefaultIconTools()
    ensures ToolIcon("Nmap Scanner") == Braces
    ensures ToolIcon("CVSS Scoring") == Braces
    ensures ToolIcon("Wayback Machine Dorking") == Braces
    ensures ToolIcon("CORS Misc Scanner") == Braces
    ensures ToolIcon("Open Redirect Exploiter") == Braces
  {
  }

  /** `getStatusColor(status)` */
  function StatusColor(status: string): (r: string)
    ensures status == "Available" ==> r == "text-gray-300"
    ensures status == "Under Development" ==> r == "text-yellow-500"
    ensures status == "Maintenance" ==> r == "text-red-500"
    ensures status != "Available" && status != "Under Development" && status != "Maintenance" ==>
      r == "text-gray-500"
  {
    match status
    case "Available" => "text-gray-300"
    case "Under Development" => "text-yellow-500"
    case "Maintenance" => "text-red-500"
    case _ => "text-gray-500"
  }
}
