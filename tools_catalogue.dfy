/**
 * The tool catalogue of lib/tools.ts: the fixed `tools` table, `getCategoryLabel` and the
 * placeholder `getToolIcon`.
 */
module Tools {
  import opened Wrappers
  import opened Strings

  datatype Tool = Tool(id: string, name: string, description: string, category: string, status: string)

  /** `tools`, in catalogue order. */
  const Catalogue: seq<Tool> := [
    Tool("4", "Whois Lookup", "Perform a WHOIS lookup for a domain.", "recon", "Available"),
    Tool("1", "Subdomain Finder", "Find subdomains of a target domain.", "recon", "Available"),
    Tool("2", "Nmap Scanner", "Scan open ports on a target IP.", "recon", "Available"),
    Tool("3", "WAF Detector", "Detect if a website is behind a WAF.", "recon", "Available"),
    Tool("11", "URL Crawler [FUZZ]", "Crawl a website to find all links with fuzzing format.", "recon", "Available"),
    Tool("12", "Deep URL Crawler", "Crawl a website using katana to find all juicy endpoints.", "recon", "Available"),
    Tool("5", "URL Fuzzer", "Fuzz URLs to discover hidden paths.", "exploit", "Under Development"),
    Tool("6", "Nuclei", "Fast and customizable vulnerability scanner.", "vulnerability", "Under Development"),
    Tool("7", "Nikto", "Web server vulnerability scanner.", "vulnerability", "Under Development"),
    Tool("8", "XSS Exploiter", "Exploit XSS vulnerabilities.", "exploit", "Under Development"),
    Tool("9", "SQLi Exploiter", "Exploit SQL injection vulnerabilities.", "exploit", "Under Development"),
    Tool("10", "CVSS Scoring", "Calculate CVSS score for vulnerabilities.", "utils", "Available"),
    Tool("15", "Wayback Machine Dorking", "Use the Wayback Machine to find historical data.", "recon", "Available"),
    Tool("16", "CORS Misc Scanner", "Crawl a website using katana to find all juicy endpoints.", "exploit", "Available"),
    Tool("17", "Open Redirect Exploiter", "Exploit open redirect vulnerabilities.", "exploit", "Under Development")
  ]

  predicate KnownCategory(c: string) {
    c == "recon" || c == "vulnerability" || c == "exploit" || c == "utils"
  }

  predicate KnownStatus(s: string) { s == "Available" || s == "Under Development" }

  const Ids: seq<string> := ["4", "1", "2", "3", "11", "12", "5", "6", "7", "8", "9", "10", "15", "16", "17"]

  /** The catalogue has fifteen tools and these are their ids, in order. */
  lemma CatalogueIds()
    ensures |Catalogue| == |Ids| == 15
    ensures forall i :: 0 <= i < |Catalogue| ==> Catalogue[i].id == Ids[i]
  {
  }

  /** Tool ids are pairwise distinct. */
  lemma IdsDistinct()
    ensures forall i, j :: 0 <= i < j < |Ids| ==> Ids[i] != Ids[j]
  {
  }

  /** Every category is one of the four the labels know, and every status is Available or
      Under Development. */
  lemma CategoriesAndStatusesKnown()
    ensures forall i :: 0 <= i < |Catalogue| ==> KnownCategory(Catalogue[i].category)
    ensures forall i :: 0 <= i < |Catalogue| ==> KnownStatus(Catalogue[i].status)
  {
  }

  /** `categoryMap` */
  const CategoryLabels: map<string, string> := map[
    "recon" := "Reconnaissance", "vulnerability" := "Vulnerability Assessment",
    "exploit" := "Exploitation", "utils" := "Utilities"
  ]

  /** `getCategoryLabel(category)`: the fixed label of a known category; any other category is
      shown with its first character upper-cased. */
  function GetCategoryLabel(category: string): (r: string)
    ensures category in CategoryLabels ==> r == CategoryLabels[category]
    ensures category !in CategoryLabels ==>
      |r| == |category| && (|r| > 0 ==> r[0] == UpperChar(category[0]) && r[1..] == category[1..])
  {
    if category in CategoryLabels && CategoryLabels[category] != "" then CategoryLabels[category]
    else
      var first := if category == "" then 0 else 1;
      ToUpper(category[..first]) + category[first..]
  }

  /** `getCategoryLabel("")` is `""`: `charAt(0)` of the empty string is empty. */
  lemma EmptyCategoryLabel()
    ensures GetCategoryLabel("") == ""
  {
  }

  /** `getToolIcon` always answers `null`; icons are chosen in the sidebar instead. */
  function GetToolIcon(toolName: string): (r: Option<string>)
    ensures r.None?
  {
    None
  }
}
