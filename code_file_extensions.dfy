/**
 * The language-to-extension table of lib/code-file-extensions.ts and `getFileExtension`, which
 * picks the extension for a downloaded code block.
 */
module CodeFileExtensions {
  import opened Strings

  /** `languageToExtension` */
  const LanguageToExtension: map<string, string> := map[
    "javascript" := "js", "typescript" := "ts", "jsx" := "jsx", "tsx" := "tsx",
    "python" := "py", "bash" := "sh", "shell" := "sh", "html" := "html", "css" := "css",
    "json" := "json", "java" := "java", "c" := "c", "csharp" := "cs", "ruby" := "rb",
    "go" := "go", "rust" := "rs", "dart" := "dart", "sql" := "sql", "php" := "php",
    "markup" := "html"
  ]

  /** `getFileExtension(language)`: the table entry for the lower-cased name, or `txt` when
      there is none (or it is empty, which `||` also treats as missing). */
  function GetFileExtension(language: string): (r: string)
    ensures r != ""
    ensures r == "txt" || r in LanguageToExtension.Values
    ensures ToLower(language) !in LanguageToExtension ==> r == "txt"
  {
    var key := ToLower(language);
    if key in LanguageToExtension && LanguageToExtension[key] != "" then LanguageToExtension[key]
    else "txt"
  }

  /** Every extension in the table is non-empty, so the `|| 'txt'` fallback only fires for
      names that are not in the table. */
  lemma TableHasNoEmptyExtension()
    ensures forall k :: k in LanguageToExtension ==> LanguageToExtension[k] != ""
  {
  }

  /** The lookup ignores ASCII case: a name and its lower-case form get the same extension. */
  lemma LookupIgnoresCase(language: string)
    ensures GetFileExtension(language) == GetFileExtension(ToLower(language))
  {
    ToLowerIdempotent(language);
  }

  /** A name found in the table gets its entry. */
  lemma KnownLanguage(language: string)
    requires ToLower(language) in LanguageToExtension
    ensures GetFileExtension(language) == LanguageToExtension[ToLower(language)]
  {
    TableHasNoEmptyExtension();
  }

  /** The aliases of the table: bash and shell both give `sh`, markup and html both give `html`. */
  lemma AliasesAgree()
    ensures GetFileExtension("bash") == GetFileExtension("shell") == "sh"
    ensures GetFileExtension("markup") == GetFileExtension("html") == "html"
  {
    AliasEntries();
    AliasNamesLowerCase();
    TableHasNoEmptyExtension();
  }

  /** The four alias entries of the table. */
  lemma AliasEntries()
    ensures "bash" in LanguageToExtension && LanguageToExtension["bash"] == "sh"
    ensures "shell" in LanguageToExtension && LanguageToExtension["shell"] == "sh"
    ensures "markup" in LanguageToExtension && LanguageToExtension["markup"] == "html"
    ensures "html" in LanguageToExtension && LanguageToExtension["html"] == "html"
  {
  }

  /** The alias names are already lower case. */
  lemma AliasNamesLowerCase()
    ensures ToLower("bash") == "bash" && ToLower("shell") == "shell"
    ensures ToLower("markup") == "markup" && ToLower("html") == "html"
  {
  }

  lemma LowerCaseUnchanged(s: string)
    requires forall i :: 0 <= i < |s| ==> !IsAsciiUpper(s[i])
    ensures ToLower(s) == s
  {
  }
}
