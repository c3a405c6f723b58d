/**
 * components/tools/google-dork-modal.tsx: `generateDorks`, which turns a domain into 26 Google
 * search queries, and the empty-input guard of `handleRunTool`.
 */
module GoogleDork {
  import opened Wrappers
  import opened Strings
  import opened UriComponent

  /** One result: the title shown, the query, and its Google search URL. */
  datatype Dork = Dork(title: string, query: string, url: string)

  /** The 26 entries of the array literal. */
  datatype DorkKind =
    Subdomains | SubSubdomains | GitFolders | BackupFiles | ExposedDocuments |
    ConfidentialDocuments | ConfigFiles | DatabaseFiles | OtherFiles | SqlErrors | PhpErrors |
    WordpressFiles | ProjectManagement | PathTraversal | CodeHosting | CloudBuckets | Traefik |
    Jenkins | LoginPages | OpenRedirects | CodeShareSites | ThirdPartySites | StackOverflow |
    PastebinSites | StrutsRce | LinkedinEmployees

  /** The order of the entries in the array literal. */
  const Kinds: seq<DorkKind> := [
    Subdomains, SubSubdomains, GitFolders, BackupFiles, ExposedDocuments, ConfidentialDocuments,
    ConfigFiles, DatabaseFiles, OtherFiles, SqlErrors, PhpErrors, WordpressFiles,
    ProjectManagement, PathTraversal, CodeHosting, CloudBuckets, Traefik, Jenkins, LoginPages,
    OpenRedirects, CodeShareSites, ThirdPartySites, StackOverflow, PastebinSites, StrutsRce,
    LinkedinEmployees
  ]

  /** The `title` of each entry. */
  function Title(kind: DorkKind): string {
    match kind
    case Subdomains => "Subdomains"
    case SubSubdomains => "Sub-subdomains"
    case GitFolders => ".git folders"
    case BackupFiles => "Backup files"
    case ExposedDocuments => "Exposed documents"
    case ConfidentialDocuments => "Confidential documents"
    case ConfigFiles => "Config files"
    case DatabaseFiles => "Database files"
    case OtherFiles => "Other files"
    case SqlErrors => "SQL errors"
    case PhpErrors => "PHP errors"
    case WordpressFiles => "Wordpress files"
    case ProjectManagement => "Project management sites"
    case PathTraversal => "Path traversal"
    case CodeHosting => "GitHub/GitLab/Bitbucket"
    case CloudBuckets => "Cloud buckets S3/GCP"
    case Traefik => "Traefik"
    case Jenkins => "Jenkins"
    case LoginPages => "Login pages"
    case OpenRedirects => "Open redirects"
    case CodeShareSites => "Code share sites"
    case ThirdPartySites => "Other 3rd parties sites"
    case StackOverflow => "Stackoverflow references"
    case PastebinSites => "Pastebin-like sites"
    case StrutsRce => "Apache Struts RCE"
    case LinkedinEmployees => "Linkedin employees"
  }

  /** The text of each query before the interpolated name. */
  function Before(kind: DorkKind): string {
    match kind
    case Subdomains => "site:*."
    case SubSubdomains => "site:*.*."
    case GitFolders => "inurl:\"/.git\" "
    case BackupFiles => "site:"
    case ExposedDocuments => "site:"
    case ConfidentialDocuments => "inurl:"
    case ConfigFiles => "site:"
    case DatabaseFiles => "site:"
    case OtherFiles => "site:"
    case SqlErrors => "site:"
    case PhpErrors => "site:"
    case WordpressFiles => "site:"
    case ProjectManagement => "site:trello.com | site:*.atlassian.net \""
    case PathTraversal => "\""
    case CodeHosting => "site:github.com | site:gitlab.com | site:bitbucket.org \""
    case CloudBuckets => "site:.s3.amazonaws.com | site:storage.googleapis.com | site:amazonaws.com \""
    case Traefik => "intitle:traefik inurl:8080/dashboard \""
    case Jenkins => "intitle:\"Dashboard [Jenkins]\" \""
    case LoginPages => "site:"
    case OpenRedirects => "site:"
    case CodeShareSites => "site:sharecode.io | site:controlc.com | site:codepad.co | site:ideone.com | site:codebeautify.org | site:jsdelivr.com | site:codeshare.io | site:codepen.io | site:repl.it | site:jsfiddle.net \""
    case ThirdPartySites => "site:gitter.im | site:papaly.com | site:productforums.google.com | site:coggle.it | site:replt.it | site:ycombinator.com | site:libraries.io | site:npm.runkit.com | site:npmjs.com | site:scribd.com \""
    case StackOverflow => "site:stackoverflow.com \""
    case PastebinSites => "site:justpaste.it | site:heypasteit.com | site:pastebin.com \""
    case StrutsRce => "site:"
    case LinkedinEmployees => "site:linkedin.com employees "
  }

  /** The text of each query after the interpolated name. */
  function After(kind: DorkKind): string {
    match kind
    case Subdomains => ""
    case SubSubdomains => ""
    case GitFolders => " -github"
    case BackupFiles => " ext:bkf | ext:bkp | ext:bak | ext:old | ext:backup"
    case ExposedDocuments => " ext:doc | ext:docx | ext:odt | ext:pdf | ext:rtf | ext:sxw | ext:psw | ext:ppt | ext:pptx | ext:pps | ext:csv | filetype:doc | filetype:docx | filetype:xls | filetype:xlsx | filetype:ppt | filetype:pptx | filetype:mdb | filetype:pdf | filetype:sql | filetype:txt | filetype:rtf | filetype:csv | filetype:xml | filetype:conf | filetype:dat | filetype:ini | filetype:log | index%20of:id_rsa id_rsa.pub | filetype:py | filetype:html | filetype:sh | filetype:odt | filetype:key | filetype:sign | filetype:md | filetype:old | filetype:bin | filetype:cer | filetype:crt | filetype:pfx | filetype:crl | filetype:crs | filetype:der"
    case ConfidentialDocuments => " not for distribution | confidential | \"employee only\" | proprietary | top secret | classified | trade secret | internal | private filetype:xls OR filetype:csv OR filetype:doc OR filetype:pdf"
    case ConfigFiles => " ext:xml | ext:conf | ext:cnf | ext:reg | ext:inf | ext:rdp | ext:cfg | ext:txt | ext:ora | ext:env | ext:ini"
    case DatabaseFiles => " ext:sql | ext:dbf | ext:mdb"
    case OtherFiles => " intitle:index.of | ext:log | ext:php intitle:phpinfo \"published by the PHP Group\" | inurl:shell | inurl:backdoor | inurl:wso | inurl:cmd | shadow | passwd | boot.ini | inurl:backdoor | inurl:readme | inurl:license | inurl:install | inurl:setup | inurl:config | inurl:\"/phpinfo.php\" | inurl:\".htaccess\" | ext:swf"
    case SqlErrors => " intext:\"sql syntax near\" | intext:\"syntax error has occurred\" | intext:\"incorrect syntax near\" | intext:\"unexpected end of SQL command\" | intext:\"Warning: mysql_connect()\" | intext:\"Warning: mysql_query()\" | intext:\"Warning: pg_connect()\""
    case PhpErrors => " \"PHP Parse error\" | \"PHP Warning\" | \"PHP Error\""
    case WordpressFiles => " inurl:wp-content | inurl:wp-includes"
    case ProjectManagement => "\""
    case PathTraversal => "\" intitle:\"index of\" \"parent directory\" | intitle:\"index of\" \"DCIM\" | intitle:\"index of\" \"ftp\" | intitle:\"index of\" \"backup\" | intitle:\"index of\" \"mail\" | intitle:\"index of\" \"password\" | intitle:\"index of\" \"pub\" | intitle:\"index of\" \".git\""
    case CodeHosting => "\""
    case CloudBuckets => "\""
    case Traefik => "\""
    case Jenkins => "\""
    case LoginPages => " inurl:signup | inurl:register | intitle:Signup | inurl:admin | inurl:login | inurl:adminlogin | inurl:cplogin | inurl:weblogin | inurl:quicklogin | inurl:wp-admin | inurl:wp-login | inurl:portal | inurl:userportal | inurl:loginpanel | inurl:memberlogin | inurl:remote | inurl:dashboard | inurl:auth | inurl:exchange | inurl:ForgotPassword | inurl:test"
    case OpenRedirects => " inurl:redir | inurl:url | inurl:redirect | inurl:return | inurl:src=http | inurl:r=http"
    case CodeShareSites => "\""
    case ThirdPartySites => "\""
    case StackOverflow => "\""
    case PastebinSites => "\""
    case StrutsRce => " ext:action | ext:struts | ext:do"
    case LinkedinEmployees => ""
  }

  /** Only the code-hosting query interpolates `baseDomain`; every other one uses `target`. */
  predicate OnBaseDomain(kind: DorkKind) { kind == CodeHosting }

  const SearchUrl := "https://www.google.com/search?q="

  /** `domain.replace(/^https?:\/\/(www\.)?/i, '')`: a leading scheme is removed, and a `www.`
      right after it too; a `www.` without a scheme stays. */
  function StripSchemeAndWww(domain: string): (r: string)
    ensures EndsWith(domain, r)
  {
    var rest := StripScheme(domain);
    if rest != domain && StartsWithIgnoringCase(rest, "www.") then rest[4..] else rest
  }

  /** `target`: the text before the first `/`. */
  function Target(domain: string): (r: string)
    ensures '/' !in r
  {
    BeforeFirst(StripSchemeAndWww(domain), '/')
  }

  /** `baseDomain`: the target up to its first `.`. */
  function BaseDomain(target: string): (r: string)
    ensures '.' !in r && StartsWith(target, r)
  {
    BeforeFirst(target, '.')
  }

  /** The query of one entry. */
  function Query(kind: DorkKind, target: string, baseDomain: string): string {
    Before(kind) + (if OnBaseDomain(kind) then baseDomain else target) + After(kind)
  }

  function MakeDork(kind: DorkKind, target: string, baseDomain: string): (d: Dork)
    ensures d.title == Title(kind)
    ensures d.url == SearchUrl + EncodeUriComponent(d.query)
  {
    var query := Query(kind, target, baseDomain);
    Dork(Title(kind), query, SearchUrl + EncodeUriComponent(query))
  }

  /** `generateDorks(domain)`: one entry per kind, in the order of the array literal, each
      carrying the search URL of its own query. */
  function GenerateDorks(domain: string): (r: seq<Dork>)
    ensures |r| == |Kinds|
    ensures forall i :: 0 <= i < |r| ==> r[i].title == Title(Kinds[i])
    ensures forall i :: 0 <= i < |r| ==> r[i].url == SearchUrl + EncodeUriComponent(r[i].query)
  {
    var target := Target(domain);
    var baseDomain := BaseDomain(target);
    seq(|Kinds|, i requires 0 <= i < |Kinds| => MakeDork(Kinds[i], target, baseDomain))
  }

  /** Every query contains `target`, except the code-hosting one, which contains `baseDomain`. */
  lemma QueriesMentionTheTarget(domain: string, i: nat)
    requires i < |Kinds|
    ensures var q := GenerateDorks(domain)[i].query;
      if Kinds[i] == CodeHosting then Contains(q, BaseDomain(Target(domain))) else Contains(q, Target(domain))
  {
    var kind := Kinds[i];
    var name := if OnBaseDomain(kind) then BaseDomain(Target(domain)) else Target(domain);
    ContainsAt(Before(kind) + name + After(kind), name, |Before(kind)|);
  }

  /** The place of each kind in the array literal. */
  function Position(kind: DorkKind): (i: nat)
    ensures i < |Kinds| && Kinds[i] == kind
  {
    match kind
    case Subdomains => 0
    case SubSubdomains => 1
    case GitFolders => 2
    case BackupFiles => 3
    case ExposedDocuments => 4
    case ConfidentialDocuments => 5
    case ConfigFiles => 6
    case DatabaseFiles => 7
    case OtherFiles => 8
    case SqlErrors => 9
    case PhpErrors => 10
    case WordpressFiles => 11
    case ProjectManagement => 12
    case PathTraversal => 13
    case CodeHosting => 14
    case CloudBuckets => 15
    case Traefik => 16
    case Jenkins => 17
    case LoginPages => 18
    case OpenRedirects => 19
    case CodeShareSites => 20
    case ThirdPartySites => 21
    case StackOverflow => 22
    case PastebinSites => 23
    case StrutsRce => 24
    case LinkedinEmployees => 25
  }

  /** There are 26 entries, one of each kind. */
  lemma EveryKindOnce()
    ensures |Kinds| == 26
    ensures forall i, j :: 0 <= i < j < |Kinds| ==> Kinds[i] != Kinds[j]
    ensures forall kind :: kind in Kinds
  {
    KindsDistinct();
    forall kind ensures kind in Kinds {
      assert Kinds[Position(kind)] == kind;
    }
  }

  lemma KindsDistinct()
    ensures forall i, j :: 0 <= i < j < |Kinds| ==> Kinds[i] != Kinds[j]
  {
    forall i, j | 0 <= i < j < |Kinds| ensures Kinds[i] != Kinds[j] {
      assert Position(Kinds[i]) == i;
    }
  }

  /** No two kinds share a title, so the 26 titles are distinct. */
  lemma TitlesDistinct(k1: DorkKind, k2: DorkKind)
    requires Title(k1) == Title(k2)
    ensures k1 == k2
  {
  }

  /** The scheme and a following `www.` are removed; without a scheme a `www.` stays. */
  lemma WwwOnlyAfterScheme(domain: string)
    ensures !StartsWithIgnoringCase(domain, "https://") && !StartsWithIgnoringCase(domain, "http://") ==>
      Target(domain) == BeforeFirst(domain, '/')
    ensures StartsWithIgnoringCase(domain, "https://") && StartsWithIgnoringCase(domain[8..], "www.") ==>
      Target(domain) == BeforeFirst(domain[12..], '/')
    ensures StartsWithIgnoringCase(domain, "https://") && !StartsWithIgnoringCase(domain[8..], "www.") ==>
      Target(domain) == BeforeFirst(domain[8..], '/')
  {
    if StartsWithIgnoringCase(domain, "https://") {
      assert |StripScheme(domain)| < |domain|;
    }
  }

  /** The modal's state: the typed domain, the generated entries and the busy flag. */
  class GoogleDorkModal {
    var domain: string
    var dorkResults: seq<Dork>
    var isLoading: bool

    constructor ()
      ensures domain == "" && dorkResults == [] && !isLoading
    {
      domain := "";
      dorkResults := [];
      isLoading := false;
    }

    /** `handleRunTool()`: an empty domain only raises the "Domain is required" toast; otherwise
        the entries are generated from the domain and the busy flag is cleared again. */
    method HandleRunTool()
      modifies this
      ensures domain == old(domain)
      ensures old(domain) == "" ==> dorkResults == old(dorkResults) && isLoading == old(isLoading)
      ensures old(domain) != "" ==> dorkResults == GenerateDorks(domain) && !isLoading
      ensures |dorkResults| == if old(domain) == "" then |old(dorkResults)| else 26
    {
      if domain == "" {
        return;
      }
      isLoading := true;
      dorkResults := GenerateDorks(domain);
      isLoading := false;
      assert |Kinds| == 26;
    }
  }
}
