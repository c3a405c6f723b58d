# pungoe security-tools front end — a Dafny model of its sequential core

pungoe is a Next.js front end for a set of security tools. The tools themselves run in a Flask
backend, and there is also a small Python script, `struktur.py`, that dumps a directory tree
with file contents. This project models and proves the parts of the repository that are plain
sequential logic:

- **Directory dump.** The `struktur.py` walk over a filesystem given as a tree. Output goes to
  an append-only sink.
- **ANSI stripping.** The `stripAnsiCodes` escape-sequence remover, written as a deterministic
  scanner with the regular expression stated declaratively beside it.
- **Validators and route guards.** The checks in `validators.ts` and the guard chains of the API
  routes. Each is a decision function from request fields to a response.
- **Streamed lines.** The line assembler of the streaming modals: a loop proved against the whole
  text received so far.
- **Output formatters.** The parsers and formatters of the tool modals: wafw00f, the CORS scan,
  ffuf lines, Dalfox `[POC]` lines, the subdomain, crawler and Wayback reports, and the URL
  linkifier.
- **Google dorks.** The dork generator.
- **CVSS.** The CVSS v3.1 calculator pieces, over `real`.
- **Lookups.** The catalogue, grouping, initials and language-to-extension functions.

**How React state is modelled.** Each modal is a class whose fields are its `useState` values.
Its handlers are methods. A handler that calls the backend takes the backend's answer as a
parameter, so the method covers the whole run from the guards to the `finally` block.

**Shared modules.**

| module | what it holds |
|---|---|
| `Strings` | JavaScript string operations |
| `StreamLines` | the chunk-to-line assembler |
| `Routes` | the backend answer as the routes and modals see it |
| `ToolModals` | selected files, downloads and the bullet listings |
| `UriComponent` | UTF-8 and `encodeURIComponent` |

## Model

| member | source | states |
|---|---|---|
| Strings.Trim | components/tools/url-crawler-modal.tsx:228 | the trimmed text is the piece of the input between its leading and its trailing white space: what is cut off at either end is all white space, and the result neither starts nor ends with white space |
| Strings.TrimOfPadded | components/tools/url-crawler-modal.tsx:228 | trimming a text padded with white space on both sides gives back exactly that text, white space inside it included |
| Strings.TrimEmptyIffBlank | components/tools/url-crawler-modal.tsx:228 | trimming leaves nothing exactly when the text is all white space |
| Strings.StripScheme | components/tools/wayback-dorking-modal.tsx:198 | a leading `https://` or `http://` in any case is removed and the rest kept; text without one is unchanged |
| Strings.SplitJoin | components/tools/wayback-dorking-modal.tsx:92 | splitting on a separator and joining back with it gives the text, and no piece holds the separator |
| Strings.JoinSplit | components/tools/wayback-dorking-modal.tsx:139 | joining separator-free lines and splitting the result gives the lines back |
| Strings.NatToStringValue | components/tools/url-crawler-modal.tsx:183 | the decimal rendering of a count reads back as that count |
| Routes.OrElse | components/tools/open-redirect-modal.tsx:78 | `s \|\| fallback` is the fallback exactly for the empty string, and is never empty when the fallback is not |
| Routes.ThrownMessage | components/tools/open-redirect-modal.tsx:90 | an `Error` gives its message, anything else thrown gives the fallback |
| ToolModals.ErrorMessage | components/tools/url-fuzzer-modal.tsx:107-110 | the refusal's `error` field when it is present and non-empty, the fallback otherwise |
| ToolModals.StreamError | components/tools/url-fuzzer-modal.tsx:107-165 | a refusal always leaves an error (its field or the fallback); an answered stream leaves one exactly when the stream broke off, none when it finished or was cancelled |
| ToolModals.Bullets | components/tools/url-crawler-modal.tsx:183 | one bullet per item, each `• ` followed by the item, in order |
| Struktur.SortByNameSorts | struktur.py:7 | the entries of a directory are visited in ascending order of name, each exactly once (sorted, and a permutation of the listing) |
| Struktur.InsertKeepsOrder | struktur.py:7 | inserting one entry into a sorted listing keeps it sorted and adds exactly that entry |
| Struktur.NameLessTotal | struktur.py:7 | the name order compares any two distinct names |
| Struktur.JoinPath | struktur.py:8-9 | `os.path.join` ends with the entry's name |
| Struktur.Normalize | struktur.py:9 | every backslash becomes `/` and every other character is kept, so no backslash remains |
| Struktur.StripTrailingSlashes | struktur.py:28 | the root loses exactly its trailing `/` characters: the result is a prefix of the input that does not end in `/` |
| Struktur.Indent | struktur.py:10 | the indentation is exactly 4×depth spaces |
| Struktur.IndentAll | struktur.py:20-21 | each content line, in order and verbatim, behind the indentation of depth+1 |
| Struktur.EntryBlock | struktur.py:10-16 | an entry writes its header first (indentation, marker, normalised joined path), then only deeper lines, so the next line at its depth belongs to the next sibling |
| Struktur.RenderDirEntry | struktur.py:12-14 | a directory writes `<prefix><path>/`, then its whole subtree one level deeper |
| Struktur.RenderFileEntry | struktur.py:15-25 | a file writes `<prefix><path>:`, then its body one level deeper |
| Struktur.FolderLevels | struktur.py:7-16 | every line written for a folder is at least as deep as its entries, and the lines at exactly that depth are the headers of its entries in ascending order of name (depth-first, contiguous subtrees) |
| Struktur.FolderHeaderCounts | struktur.py:7-16 | counting header lines only, there is one per directory and one per file of the tree |
| Struktur.FileBodyShape | struktur.py:18-25 | a readable file contributes its lines verbatim and indented; an unreadable one contributes the lines read before the failure, then exactly one `[Tidak bisa membaca file: <err>]` line, last |
| Struktur.Sink.Write | struktur.py:13 | a write appends exactly one line to the output |
| Struktur.Sink.Truncate | struktur.py:30 | opening the output with mode `w` empties it |
| Struktur.PrintStructureAndCode | struktur.py:3-25 | the recursive walk appends exactly the lines of the folder's listing, sorted and depth-first, to what was already written |
| Struktur.WriteFileBody | struktur.py:18-25 | the file loop appends the file's body and, on failure, the placeholder |
| Struktur.RunScript | struktur.py:28-31 | the output is truncated, then holds exactly the walk of the root with its trailing slashes removed, at depth 0 |
| Ansi.StripAnsiCodes | utils/ansi.ts:4-9 | a missing (non-string) input gives `""`; a string keeps exactly the characters the scan keeps, where each deleted run is a match and the longest one at its position (`ScanPieces`, `ScanTakesLongest`) |
| Ansi.PrefixRun | utils/ansi.ts:7 | the `[[()#;?]*` run is maximal |
| Ansi.LeadingDigits | utils/ansi.ts:7 | a greedy `[0-9]{0,4}` takes every digit up to the cap |
| Ansi.ParamsLen | utils/ansi.ts:7 | parameters and final are absent exactly when no digit and no final character follow the prefixes |
| Ansi.MatchSound | utils/ansi.ts:7 | every run the scanner deletes has the pattern's shape: ESC or CSI, prefixes, optional digit groups, one final character |
| Ansi.ParamsSound | utils/ansi.ts:7 | the optional digit group and the final character the scanner takes match `(?:[0-9]{1,4}(?:;[0-9]{0,4})*)?[0-9A-ORZcf-nqry=><]` |
| Ansi.GroupsSound | utils/ansi.ts:7 | the `;` groups the scanner takes, giving back a digit where the engine backtracks, match the pattern |
| Ansi.MatchComplete | utils/ansi.ts:7 | where the scanner finds no match, no prefix of the text matches: an ESC or CSI without a complete tail is kept |
| Ansi.GroupsMaximal | utils/ansi.ts:7 | any `(?:;[0-9]{0,4})*` groups-and-final run at the front is no longer than the one the scanner takes |
| Ansi.ParamsMaximal | utils/ansi.ts:7 | any parameters-and-final run at the front is no longer than the one the scanner takes |
| Ansi.TailMaximal | utils/ansi.ts:7 | any prefixes-parameters-final run at the front is no longer than the scanner's |
| Ansi.MatchMaximal | utils/ansi.ts:7 | any match at the front of the text means the scanner finds one there, at least as long: the scanner takes the longest match, which is the one the backtracking engine returns for this pattern |
| Ansi.NoLongerMatch | utils/ansi.ts:7 | no prefix longer than the deleted run is a match |
| Ansi.CursorShowMatched | utils/ansi.ts:6-9 | ESC `[?25h` is deleted whole (six characters), although ESC `[?2` alone is also a match |
| Ansi.ScanCovers | utils/ansi.ts:6-9 | the pieces of the scan, deleted and kept, give back the text, left to right without overlap |
| Ansi.ScanPieces | utils/ansi.ts:6-9 | every deleted run is a match and no match starts at a kept character |
| Ansi.ScanTakesLongest | utils/ansi.ts:6-9 | every deleted run is the longest match at its position: no longer stretch of the text that follows is a match |
| Ansi.StripIsSubsequence | utils/ansi.ts:6-9 | the result is a subsequence of the input, so its length never grows |
| Ansi.StripWithoutIntroducer | utils/ansi.ts:7 | text with neither U+001B nor U+009B comes back unchanged |
| Ansi.StripAfterMatch | utils/ansi.ts:6-9 | a complete match at the front is deleted and the scan resumes right after it |
| Ansi.StripKeepsFirst | utils/ansi.ts:6-9 | a character at which no match starts is kept |
| Ansi.SgrOneParameterMatched | utils/ansi.ts:7 | SGR with one parameter, ESC `[` n `m` (section 8.3.117 of ECMA-48), is matched as a whole |
| Validators.ValidateDomain | app/api/tools/utils/validators.ts:2-14 | a missing or empty domain gives 'Domain is required'; otherwise valid exactly when the domain pattern matches, else 'Invalid domain format'; valid results carry no message and invalid ones do |
| Validators.DomainDecision | app/api/tools/utils/validators.ts:8 | the hand-written decision accepts exactly the strings the domain regular expression matches |
| Validators.AcceptedDomainShape | app/api/tools/utils/validators.ts:8-11 | an accepted domain does not start with `-`, has a last dot followed by 2-6 letters, and upper case appears only in the first label and the TLD |
| Validators.OctetRange | app/api/tools/utils/validators.ts:23 | an octet alternative matches exactly 1-3 digits of value at most 255 |
| Validators.ValidateTarget | app/api/tools/utils/validators.ts:16-29 | valid exactly when `new URL` parses the target or the IP pattern matches; otherwise 'Target must be a valid URL or IP address' |
| Validators.DottedQuad | app/api/tools/utils/validators.ts:23-27 | a target that is not a URL is accepted exactly when it is four dot-separated octets, each of 1-3 digits and at most 255 |
| Validators.UrlHostDecision | app/api/tools/utils/validators.ts:46 | the hand-written decision accepts exactly the strings `^[a-z0-9\-\.]+\.[a-z]{2,}$/i` matches |
| Validators.ValidateTargetUrl | app/api/tools/utils/validators.ts:32-51 | a missing or empty input gives 'Input is required'; the cleaned input (trimmed, scheme removed) shorter than 3 gives 'Input too short'; then the host pattern decides |
| Validators.AcceptedUrlShape | app/api/tools/utils/validators.ts:38-48 | an accepted input, cleaned, holds only letters, digits, `-` and `.`, and ends with a dot and at least two letters |
| GoogleDork.StripSchemeAndWww | components/tools/google-dork-modal.tsx:41 | `replace(/^https?:\/\/(www\.)?/i, '')` leaves a suffix of the domain |
| GoogleDork.Target | components/tools/google-dork-modal.tsx:41 | `target` is the cleaned domain up to its first `/`, so it holds no `/` |
| GoogleDork.BaseDomain | components/tools/google-dork-modal.tsx:42 | `baseDomain` is a prefix of the target without `.` |
| GoogleDork.WwwOnlyAfterScheme | components/tools/google-dork-modal.tsx:41 | without a scheme the domain is kept whole; after `https://` a `www.` is also removed, and without `www.` only the scheme is |
| GoogleDork.MakeDork | components/tools/google-dork-modal.tsx:45-49 | each entry carries its kind's title and the search URL of its own query, encoded |
| GoogleDork.GenerateDorks | components/tools/google-dork-modal.tsx:40-175 | one entry per kind, in the order of the array literal, each with the search URL of its own query |
| GoogleDork.QueriesMentionTheTarget | components/tools/google-dork-modal.tsx:44-174 | every query contains `target`, except the code-hosting one, which contains `baseDomain` |
| GoogleDork.Position | components/tools/google-dork-modal.tsx:44-175 | every kind has a place in the array literal |
| GoogleDork.EveryKindOnce | components/tools/google-dork-modal.tsx:44-175 | the array literal holds 26 entries, one of each kind |
| GoogleDork.KindsDistinct | components/tools/google-dork-modal.tsx:44-175 | no kind appears twice |
| GoogleDork.TitlesDistinct | components/tools/google-dork-modal.tsx:44-175 | two kinds with the same title are the same kind |
| GoogleDork.GoogleDorkModal.constructor | components/tools/google-dork-modal.tsx:35-37 | empty domain, no results, not busy |
| GoogleDork.GoogleDorkModal.HandleRunTool | components/tools/google-dork-modal.tsx:178-210 | an empty domain changes nothing (only the toast); otherwise the results are the 26 entries generated from the domain and the busy flag is cleared |
| UriComponent.Utf8 | components/tools/google-dork-modal.tsx:48 | the UTF-8 encoding of a character is 1-4 bytes with the lead byte of its length and continuation bytes after it |
| UriComponent.Escape | components/tools/google-dork-modal.tsx:48 | a byte is written as `%` and two hexadecimal digits |
| UriComponent.EncodeUriComponent | components/tools/google-dork-modal.tsx:48 | `encodeURIComponent` never shortens its input |
| UriComponent.EncodedIsSafe | components/tools/google-dork-modal.tsx:48 | the encoded query holds only unreserved characters, `%` and hexadecimal digits, so nothing in it can end the `q` parameter |
| UriComponent.UnreservedKept | components/tools/google-dork-modal.tsx:48 | an unreserved character is copied as it is |
| UriComponent.Utf8RoundTrip | components/tools/google-dork-modal.tsx:48 | the length in a lead byte is the encoding's length, and decoding the bytes gives back the character |
| UriComponent.RoundTrip | components/tools/google-dork-modal.tsx:48 | decoding the encoded query gives back the query, so the search URL loses nothing |
| UriComponent.EncodingIsInjective | components/tools/google-dork-modal.tsx:48 | two different queries never give the same URL |
| UrlFuzzerModal.LazySearchIsLeast | components/tools/url-fuzzer-modal.tsx:226-228 | the lazy `^(.*?)` ends the payload at the least position where the rest of the pattern matches; when it finds none, no position on the first line matches |
| UrlFuzzerModal.FullTail | components/tools/url-fuzzer-modal.tsx:227 | a match of the rest of the full pattern after position p makes the payload the text before p |
| UrlFuzzerModal.AltTail | components/tools/url-fuzzer-modal.tsx:242 | a match of the rest of the fallback pattern after position p makes the payload the text before p |
| UrlFuzzerModal.FfufLineMatched | components/tools/url-fuzzer-modal.tsx:226-228 | ffuf's result line, `payload [Status: n, Size: n, Words: n, Lines: n(, Duration: nms)]`, matches the full pattern |
| UrlFuzzerModal.FfufLinePlain | components/tools/url-fuzzer-modal.tsx:219-223 | that line holds no escape introducer when the payload holds none, so cleaning leaves it as it is |
| UrlFuzzerModal.FfufLineFormat | components/tools/url-fuzzer-modal.tsx:222-240 | ffuf's result line is shown as the fuzzed URL (`FUZZ` removed from the target, then the payload), its status, its size and its duration when printed, and a closing `]`; words and lines are dropped |
| Strings.NonEmptyKeepsAll | components/tools/url-fuzzer-modal.tsx:232-237 | `.filter(Boolean)` keeps every part that is not empty |
| UrlFuzzerModal.TailsNeedBracket | components/tools/url-fuzzer-modal.tsx:226-242 | both patterns need a `[` in the line |
| UrlFuzzerModal.UnmatchedLine | components/tools/url-fuzzer-modal.tsx:222-248 | a cleaned line without `[` is shown as the base URL and the trimmed line, or as nothing when it is blank |
| UrlFuzzerModal.GuardError | components/tools/url-fuzzer-modal.tsx:74-87 | the run goes ahead exactly when the target is non-empty, a wordlist is chosen and the target contains `FUZZ`; otherwise the first failing check's message |
| UrlFuzzerModal.UrlFuzzerModal.constructor | components/tools/url-fuzzer-modal.tsx:46-53 | the modal starts empty, without error and not busy |
| UrlFuzzerModal.UrlFuzzerModal.SetTargetUrl | components/tools/url-fuzzer-modal.tsx:307 | the target input stores the typed text and changes nothing else |
| UrlFuzzerModal.UrlFuzzerModal.HandleFileChange | components/tools/url-fuzzer-modal.tsx:57-70 | a `.txt` or `text/plain` file is taken by name; any other file sets 'Only .txt files are allowed' and clears the name; no file changes nothing |
| UrlFuzzerModal.UrlFuzzerModal.HandleRunTool | components/tools/url-fuzzer-modal.tsx:72-179 | a failed check sets its error and changes nothing else; otherwise the results are the non-blank finished lines of the stream, in order, the error is the rejection's or the stream's, and the busy flag is cleared |
| UrlFuzzerModal.UrlFuzzerModal.HandleDownloadResults | components/tools/url-fuzzer-modal.tsx:181-216 | no file without results; otherwise `url-fuzz-results-<day>.txt`, whose lines are the results |
| StreamLines.KeepNonBlankMembers | components/tools/url-fuzzer-modal.tsx:134-138 | the lines kept are exactly the non-blank ones, each taken from the input |
| StreamLines.KeepNonBlankAppend | components/tools/url-fuzzer-modal.tsx:134-138 | keeping the non-blank lines of two runs in a row keeps those of each, in order |
| StreamLines.KeptLinesHaveNoNewline | components/tools/url-fuzzer-modal.tsx:131-138 | every line shown is one whole line of the text, without a newline |
| StreamLines.FlushKeepsEveryLine | components/tools/xss-scan-modal.tsx:170-172 | flushing the non-blank remainder when the reader is done keeps every non-blank piece of the text, the unfinished last one included |
| StreamLines.FeedStep | components/tools/url-fuzzer-modal.tsx:127-132 | after one more chunk, only the pending text needs splitting again: the finished lines stay and the pending text is recomputed from it |
| StreamLines.PendingAfterLastNewline | components/tools/url-fuzzer-modal.tsx:131-132 | the buffer kept between chunks holds no newline and is exactly the text after the last one received |
| StreamLines.NewlineFlushes | components/tools/url-fuzzer-modal.tsx:131-132 | a chunk that ends with a newline leaves the buffer empty and finishes the pending line |
| StreamLines.PendingContributesNothing | components/tools/url-fuzzer-modal.tsx:131-138 | the text after the last newline adds no line until its newline arrives |
| StreamLines.AppendNonBlank | components/tools/url-fuzzer-modal.tsx:134-138 | the inner loop appends the non-blank lines, in order, to the results |
| StreamLines.FeedChunk | components/tools/url-fuzzer-modal.tsx:127-138 | one pass of the loop body leaves the pending text of buffer and chunk in the buffer and appends the non-blank finished lines |
| StreamLines.PumpLines | components/tools/url-fuzzer-modal.tsx:118-139 | after all chunks the results are the non-blank finished lines of the whole text received, in order, and the buffer is its pending text |
| XssScanModal.GuardError | components/tools/xss-scan-modal.tsx:98-111 | the form is sent exactly when modes 1-3 have a URL, modes 4-6 a target file and modes 3 and 6 a payload file; each message appears exactly when its check is the first to fail |
| XssScanModal.StartDisabledIffGuardFails | components/tools/xss-scan-modal.tsx:458-462 | the Start button is disabled exactly when a run is going on or the run's checks would fail |
| XssScanModal.FormFields | components/tools/xss-scan-modal.tsx:120-131 | the form starts with the mode, holds the URL exactly in modes 1-3, and a file only for the mode that asks for it |
| XssScanModal.SentFormHasWhatTheModeNeeds | components/tools/xss-scan-modal.tsx:98-131 | once the checks pass, the form names exactly one target (the URL in modes 1-3, the file in modes 4-6) and has the payload file exactly in modes 3 and 6 |
| XssScanModal.PocAtComplete | components/tools/xss-scan-modal.tsx:77 | wherever `[POC][w][w][not ]]` white space `http…` occurs, the pattern matches there, the link taking the rest of the line |
| XssScanModal.PocAtSound | components/tools/xss-scan-modal.tsx:77 | what the matcher finds has the shape of the pattern |
| XssScanModal.FirstPocIsLeftmost | components/tools/xss-scan-modal.tsx:77 | the match used is the leftmost one, and none is reported when there is none |
| XssScanModal.PocLineHasMarker | components/tools/xss-scan-modal.tsx:75-94 | a line shown as a finding holds `[POC][`; its severity is a word and its link a piece of the cleaned line starting with `http`, with no line terminator |
| XssScanModal.DalfoxFindingShown | components/tools/xss-scan-modal.tsx:75-94 | a Dalfox finding line is shown as its severity and its link |
| XssScanModal.DalfoxFindingMatched | components/tools/xss-scan-modal.tsx:77 | the pattern matches a Dalfox finding line at its start, with its severity and its link |
| XssScanModal.DalfoxFindingPlain | components/tools/xss-scan-modal.tsx:71-76 | Dalfox's finding lines hold no escape introducer, so cleaning leaves them alone |
| XssScanModal.PocCount | components/tools/xss-scan-modal.tsx:496 | the number of `[POC]` lines is at most the number of lines |
| XssScanModal.PocCountZeroIff | components/tools/xss-scan-modal.tsx:495-497 | the count is zero exactly when no line holds `[POC]` |
| XssScanModal.SummaryCountsFindings | components/tools/xss-scan-modal.tsx:495-497 | the summary says 'No vulnerabilities found' exactly when no line holds `[POC]`, and otherwise 'Found n potential vulnerabilities' with the count |
| XssScanModal.ReadStream | components/tools/xss-scan-modal.tsx:150-172 | a finished stream shows every non-blank piece of the text, the remainder included; a broken or cancelled one only the non-blank finished lines; no line holds a newline |
| XssScanModal.XssScanModal.constructor | components/tools/xss-scan-modal.tsx:42-50 | mode 1, no URL, no files, no results, no error, not busy, not completed |
| XssScanModal.XssScanModal.SetScanMode | components/tools/xss-scan-modal.tsx:332-358 | the tabs and the selects store a mode and change nothing else |
| XssScanModal.XssScanModal.SetFiles | components/tools/xss-scan-modal.tsx:379-434 | the file inputs store the chosen file or none and change nothing else |
| XssScanModal.XssScanModal.SetTargetUrl | components/tools/xss-scan-modal.tsx:345 | the URL input stores the typed text and changes nothing else |
| XssScanModal.XssScanModal.HandleRunTool | components/tools/xss-scan-modal.tsx:97-211 | a failed check sets its message and changes nothing else; otherwise the form of the mode goes out, the results are the lines the stream gave (flushed only on a finished stream), the scan is completed exactly when the stream finished, the error is the rejection's or the stream's, and the busy flag is cleared |
| XssScanModal.XssScanModal.HandleDownloadResults | components/tools/xss-scan-modal.tsx:273-308 | no file without results; otherwise `xss-scan-results-<day>.txt`, whose lines are the results |
| WafModal.Kept | components/tools/waf-modal.tsx:64-72 | a piece of the output contributes at most its trimmed text, and only when that starts with `[*]`, `[+]`, `[-]` or `[~]` |
| WafModal.GatherAppend | components/tools/waf-modal.tsx:64-72 | mapping and filtering the lines of two parts of the output gives the lines of each part, in order |
| WafModal.TaggedLinesAreTagged | components/tools/waf-modal.tsx:64-72 | the loop examines no more lines than the output has, and every one of them is tagged |
| WafModal.TaggedLinesAppend | components/tools/waf-modal.tsx:64-72 | the lines examined for two parts in a row are those of each part, in order |
| WafModal.UntaggedLineIgnored | components/tools/waf-modal.tsx:67-72 | an untagged line anywhere in the output changes nothing |
| WafModal.GapEnd | components/tools/waf-modal.tsx:83 | the lazy `(.+?)` ends at the first ` WAF` (any case) after at least one character, without crossing a line terminator |
| WafModal.CaptureFrom | components/tools/waf-modal.tsx:83 | a captured name is at least one character and holds no line terminator |
| WafModal.DecisionOf | components/tools/waf-modal.tsx:81-96 | a line clears protection exactly when it says 'No WAF detected' or 'seems to be behind', and confirms it exactly when it says 'is behind' and neither of those |
| WafModal.StepFields | components/tools/waf-modal.tsx:80-105 | one pass of the loop sets each of the five variables as the five checks in their order decide |
| WafModal.FoldStep | components/tools/waf-modal.tsx:80-105 | one more line examined is one more pass |
| WafModal.LastProtectionIffConfirmed | components/tools/waf-modal.tsx:81-96 | over a sequence of decisions, the last deciding one gives the verdict |
| WafModal.ProtectionFollowsDecisions | components/tools/waf-modal.tsx:80-105 | the protection flag after the loop is the verdict of the decisions of the lines, in order |
| WafModal.ProtectedIffLastDecision | components/tools/waf-modal.tsx:80-105 | the site is reported protected exactly when some line confirms protection and no later line clears it |
| WafModal.NoClearAfterIffNoClear | components/tools/waf-modal.tsx:88-96 | no later line clears exactly when no later decision is a clearing one |
| WafModal.UnknownUntilNamed | components/tools/waf-modal.tsx:75-84 | the WAF name stays 'Unknown' while no line names one |
| WafModal.NameFromLastNamedLine | components/tools/waf-modal.tsx:81-91 | the name is the trimmed capture of the last line that names one; lines that clear protection do not reset it |
| WafModal.ReportLines | components/tools/waf-modal.tsx:107-112 | the report's lines: the heading, a blank line, Target, Protected, WAF Name, Requests ('N/A' when none was found), and a Reason line only when one was found |
| WafModal.JoinReportLines | components/tools/waf-modal.tsx:107-112 | the template literal is those lines joined with newlines |
| WafModal.FormatWafResults | components/tools/waf-modal.tsx:59-117 | the loop over the tagged lines of the cleaned output ends with the verdict of the whole sequence, and the report is built from it |
| WafModal.WafModal.constructor | components/tools/waf-modal.tsx:19-22 | no target, no results, no error, not busy |
| WafModal.WafModal.SetTarget | components/tools/waf-modal.tsx:137 | the target input keeps the trimmed text and changes nothing else |
| WafModal.WafModal.HandleRunTool | components/tools/waf-modal.tsx:26-57 | an empty target only sets 'Target website is required'; otherwise the host part of the target is posted, a refused answer shows its body text, an ok one the report of its output, a throw its message, and the busy flag is cleared |
| WafModal.RouteRefusesHostlessTarget | components/tools/waf-modal.tsx:37-43 | the route refuses the domain the modal posts exactly when the target has no host part (as for `https://`), which the modal's own check lets through |
| WafRoute.HostOf | app/api/tools/waf/route.ts:14 | the host part holds no `/` and is the URL, scheme removed, up to its first `/` |
| WafRoute.TargetDomain | app/api/tools/waf/route.ts:13-14 | a truthy `domain` is used as it is; otherwise a truthy `url` gives its host part; otherwise there is none |
| WafRoute.Forwarded | app/api/tools/waf/route.ts:13-27 | the domain forwarded is never empty, is missing exactly when the target domain is not truthy, and holds no `/` when it comes from the URL |
| WafRoute.Post | app/api/tools/waf/route.ts:8-46 | no target domain gives 400 'Domain is required…'; a refused backend call gives 500 with the backend's text; an ok one passes its JSON through with 200; a throw gives 500 with an error |
| WafRoute.BackendStatusDropped | app/api/tools/waf/route.ts:30-44 | the backend's status is not passed on: any refusal gives 500 with its text |
| WafRoute.UrlOnlyRefusedIffNoHost | app/api/tools/waf/route.ts:13-21 | a request carrying only a URL is refused exactly when the URL has no host part |
| WafRoute.SchemeOnlyHasNoHost | app/api/tools/waf/route.ts:14 | `https://` alone leaves no host |
| ActiveCheckRoute.Forwarded | app/api/tools/subdomain/active-check/route.ts:10-24 | refused exactly when there is neither a file nor a truthy domain; a file is forwarded whenever there is one, otherwise the non-empty domain |
| ActiveCheckRoute.Reply | app/api/tools/subdomain/active-check/route.ts:40-44 | success, with `results` (or `[]` when absent) and `count` (or 0 when absent) |
| ActiveCheckRoute.Post | app/api/tools/subdomain/active-check/route.ts:4-53 | nothing to check gives 400 'Either domain or file must be provided'; a refused backend call passes its status on with its text or 'Failed to check active subdomains'; an ok one gives 200 with the reply; a throw gives 500 |
| ActiveCheckRoute.DomainIgnoredBesideFile | app/api/tools/subdomain/active-check/route.ts:19-24 | with a file present, the domain changes neither the request nor the answer |
| ActiveCheckRoute.EmptyAnswerDefaults | app/api/tools/subdomain/active-check/route.ts:40-44 | an answer without results or count reads as an empty success |
| EnumerationRoute.Subdomains | app/api/tools/subdomain/enumeration/route.ts:33 | every subdomain is a non-empty line of the output |
| EnumerationRoute.SubdomainsJoinBack | app/api/tools/subdomain/enumeration/route.ts:33-34 | output whose lines are all non-empty is the subdomains joined with newlines, so `subdomains` and `rawOutput` agree |
| EnumerationRoute.SubdomainsOfLines | app/api/tools/subdomain/enumeration/route.ts:33 | lines come out in order, blank lines and the trailing newline dropped |
| EnumerationRoute.Post | app/api/tools/subdomain/enumeration/route.ts:4-44 | a domain `validateDomain` refuses gives 400 with its message; a refused backend call passes its status on with its text or 'Failed to enumerate subdomains'; an ok one gives 200 with the subdomains and the raw output; a throw gives 500; JSON is only sent for a domain the pattern matches |
| EnumerationRoute.MissingDomainRefused | app/api/tools/subdomain/enumeration/route.ts:8-14 | a missing or empty domain gives 400 'Domain is required' before the backend is asked |
| FuzzRoute.Check | app/api/tools/fuzz/route.ts:11-21 | the request passes exactly when the target is truthy, a file is present and the target contains `FUZZ`; the target is checked first, the file second |
| FuzzRoute.Post | app/api/tools/fuzz/route.ts:5-87 | a failed check gives 400 with its text; a refused backend call passes its status on with its text or 'Failed to start URL fuzzing'; an ok one streams with the session id; an abort gives 499, any other throw 500 |
| FuzzRoute.SameRequestsAccepted | app/api/tools/fuzz/route.ts:11-21 | the fuzz and URL-fuzzer routes accept the same requests, and answer a refused one alike exactly unless the target is present without the placeholder |
| FuzzRoute.AbortTellsApart | app/api/tools/fuzz/route.ts:75-85 | an aborted request gets 499 and another failure 500 here, while the URL-fuzzer route answers both alike |
| NmapScanRoute.Check | app/api/tools/nmap-scan/route.ts:8-20 | the request passes exactly when the target is truthy and the scan type is one of '1'-'5'; a missing target is reported first |
| NmapScanRoute.Forwarded | app/api/tools/nmap-scan/route.ts:23-27 | both fields go to the backend unchanged, and only for a request that passes |
| NmapScanRoute.Post | app/api/tools/nmap-scan/route.ts:4-47 | a failed check gives 400 with its message; a refused backend call passes its status on with its text or 'Failed to run Nmap scan'; an ok one passes its JSON through; a throw gives 500 |
| NmapScanRoute.TargetCheckedFirst | app/api/tools/nmap-scan/route.ts:8-20 | a bad scan type goes unnoticed while the target is missing |
| NmapScanRoute.ScanTypeIsExact | app/api/tools/nmap-scan/route.ts:15 | the scan type is compared as a string: padding or emptiness is refused |
| UrlFuzzerRoute.Check | app/api/tools/url-fuzzer/route.ts:12-22 | the request passes exactly when the target is truthy, contains `FUZZ` and a file is present; the placeholder is checked before the file |
| UrlFuzzerRoute.Post | app/api/tools/url-fuzzer/route.ts:6-82 | a failed check gives 400 with its text; a refused backend call passes its status on with its text or 'Failed to start fuzzing'; an ok one streams with the session id; every throw gives 500 |
| UrlFuzzerRoute.Put | app/api/tools/url-fuzzer/route.ts:84-115 | a missing session id gives 400 'session_id is required'; an ok stop gives `{status: 'stopped'}`; a refused one passes its status on with the backend's `error` or 'Failed to stop fuzzing'; a throw gives 500 |
| UrlFuzzerRoute.AcceptsWhatModalAccepts | app/api/tools/url-fuzzer/route.ts:12-22 | for what the modal sends, the route accepts exactly what the modal's own checks accept |
| UrlFuzzerRoute.OrderDiffersFromModal | app/api/tools/url-fuzzer/route.ts:12-22 | the route checks the placeholder before the file, the modal the file before the placeholder |
| XssScanRoute.Received | app/api/tools/xss-scan/route.ts:7-11 | each field read from the form was posted under its name |
| XssScanRoute.Check | app/api/tools/xss-scan/route.ts:13-28 | the request passes exactly when the mode is truthy, modes 1-3 carry a URL, modes 4-6 a target file and modes 3 and 6 a payload file; a missing mode is reported first |
| XssScanRoute.Forwarded | app/api/tools/xss-scan/route.ts:31-36 | the backend gets the mode, then each of the URL, target file and payload file that is present, whatever the mode |
| XssScanRoute.Post | app/api/tools/xss-scan/route.ts:5-97 | a failed check gives 400 with its text; a refused backend call passes its status on with its text or 'Failed to start XSS scan'; an ok one streams with the session id; an abort gives 499, any other throw 500 |
| XssScanRoute.UnknownModeForwarded | app/api/tools/xss-scan/route.ts:13-36 | a mode the interface never offers is not refused: with no inputs it is forwarded alone |
| XssScanRoute.CheckAgreesWithModal | app/api/tools/xss-scan/route.ts:18-28 | for a mode the interface offers, the route refuses with the message the modal shows for the same inputs |
| XssScanRoute.ModalFormPassesThrough | app/api/tools/xss-scan/route.ts:7-36 | whatever the modal sends passes the route's checks and reaches the backend unchanged |
| XssScanRoute.ReceivedOfSent | app/api/tools/xss-scan/route.ts:7-11 | a form of the mode, one target field and at most one payload field reads back as those values |
| CorsScannerModal.Rank | components/tools/cors-scanner-modal.tsx:107-117 | the five keys are checked in a fixed order |
| CorsScannerModal.Key | components/tools/cors-scanner-modal.tsx:107-117 | every key is a non-empty label ending in `:` |
| CorsScannerModal.FieldOfIsFirstKey | components/tools/cors-scanner-modal.tsx:107-117 | a line sets a field exactly when it contains that field's key and none checked before it, and sets none exactly when it contains no key |
| CorsScannerModal.SecondPiece | components/tools/cors-scanner-modal.tsx:108 | `line.split(key)[1]` exists exactly when the key occurs in the line |
| CorsScannerModal.SecondPieceBetweenOccurrences | components/tools/cors-scanner-modal.tsx:108 | that element starts right after the first occurrence of the key, holds no occurrence of it, and ends where the key occurs again or at the end of the line |
| CorsScannerModal.Set | components/tools/cors-scanner-modal.tsx:106-118 | an assignment sets exactly one of the five variables |
| CorsScannerModal.StepGet | components/tools/cors-scanner-modal.tsx:106-118 | one pass sets a field to the trimmed value after its key when the line names it, and leaves it alone otherwise |
| CorsScannerModal.FoldLinesStep | components/tools/cors-scanner-modal.tsx:106-118 | one more line examined is one more pass |
| CorsScannerModal.NeverSetKeepsStart | components/tools/cors-scanner-modal.tsx:100-118 | a variable no line sets keeps its starting value |
| CorsScannerModal.LastSetWins | components/tools/cors-scanner-modal.tsx:106-118 | a variable ends with the value of the last line that sets it |
| CorsScannerModal.UnnamedFieldKeepsDefault | components/tools/cors-scanner-modal.tsx:100-118 | a field no line names keeps its starting value ('Unknown' for the severity, empty otherwise) |
| CorsScannerModal.LastNamingLineWins | components/tools/cors-scanner-modal.tsx:106-118 | the last line that names a field decides its value; lines naming other fields do not touch it |
| CorsScannerModal.BlankLineNamesNothing | components/tools/cors-scanner-modal.tsx:98 | a blank line names no field, so the blank-line filter changes no finding |
| CorsScannerModal.ReportLines | components/tools/cors-scanner-modal.tsx:120-126 | the report's lines: the heading, a blank line, the six bullets with `None` for an empty header value, and a blank line at the end |
| CorsScannerModal.MissingOutputGivesDefaults | components/tools/cors-scanner-modal.tsx:92-118 | without output no line is examined: the report shows 'Unknown' severity and `None` for both headers |
| CorsScannerModal.JoinReportLines | components/tools/cors-scanner-modal.tsx:120-126 | the template literal is those lines joined with newlines, so it ends with a blank line |
| CorsScannerModal.FormatCorsResults | components/tools/cors-scanner-modal.tsx:92-131 | the loop over the non-blank lines of the cleaned output ends with the findings of the whole sequence, and the report is built from them |
| CorsScannerModal.CorsScannerModal.constructor | components/tools/cors-scanner-modal.tsx:40-43 | no URL, no results, no error, not busy |
| CorsScannerModal.CorsScannerModal.SetUrl | components/tools/cors-scanner-modal.tsx:201 | the URL input keeps the trimmed text and changes nothing else |
| CorsScannerModal.CorsScannerModal.HandleRunScan | components/tools/cors-scanner-modal.tsx:48-90 | an empty URL only sets 'URL is required'; otherwise the URL is posted, a refused answer shows its `error` field or 'Failed to scan for CORS misconfigurations', an ok one the report of its output and target, a throw its message, and the busy flag is cleared |
| SubdomainModal.ActiveLine | components/tools/subdomain-modal.tsx:168 | an active URL's line starts with `• url (Status: n)` and ends with `→ final` exactly when the answer names a non-empty final URL |
| SubdomainModal.ActiveLines | components/tools/subdomain-modal.tsx:167-169 | one line per active URL, in order |
| SubdomainModal.FooterCounts | components/tools/subdomain-modal.tsx:162-169 | the footer is one line whose number reads back as the count |
| SubdomainModal.EnumerationReportLines | components/tools/subdomain-modal.tsx:160-163 | no subdomains give 'No subdomains found'; otherwise the report's lines are the heading, a blank line, `• s` per subdomain in order, a blank line and 'Found n subdomains' with the count |
| SubdomainModal.RouteSubdomainsListed | components/tools/subdomain-modal.tsx:160-163 | the subdomains the enumeration route returns are listed one per line, whatever the scanner's output |
| SubdomainModal.ActiveReportLines | components/tools/subdomain-modal.tsx:165-170 | no active URLs give 'No active subdomains found'; otherwise the heading, a blank line, one line per URL in order, a blank line and the count |
| SubdomainModal.CleanUrl | components/tools/subdomain-modal.tsx:184-190 | the address kept is the final URL exactly when there is a non-empty one that differs, and the URL itself otherwise |
| SubdomainModal.CleanUrls | components/tools/subdomain-modal.tsx:184-190 | one address per result, in order |
| SubdomainModal.DownloadLinesAreCleanUrls | components/tools/subdomain-modal.tsx:192 | when no address holds a newline, the downloaded file's lines are the clean URLs |
| SubdomainModal.RouteForwardsWhatWasSent | components/tools/subdomain-modal.tsx:120-127 | the active-check route forwards to the backend exactly the field the modal sent |
| SubdomainModal.SubdomainModal.constructor | components/tools/subdomain-modal.tsx:38-45 | the enumeration tab, nothing typed or chosen, no results, no error, not busy |
| SubdomainModal.SubdomainModal.SetTab | components/tools/subdomain-modal.tsx:243-246 | switching tabs clears the error and changes nothing else |
| SubdomainModal.SubdomainModal.SetDomain | components/tools/subdomain-modal.tsx:262 | the enumeration input keeps the trimmed text and changes nothing else |
| SubdomainModal.SubdomainModal.SetActiveCheckDomain | components/tools/subdomain-modal.tsx:293-296 | the active-check input keeps the trimmed text and drops the chosen file |
| SubdomainModal.SubdomainModal.ClearFile | components/tools/subdomain-modal.tsx:320 | the remove button drops the chosen file and changes nothing else |
| SubdomainModal.SubdomainModal.HandleFileChange | components/tools/subdomain-modal.tsx:50-63 | the first file picked is taken when it is a text file; otherwise nothing changes |
| SubdomainModal.SubdomainModal.HandleEnumeration | components/tools/subdomain-modal.tsx:65-107 | an empty domain only sets 'Domain is required'; otherwise the domain is posted, an ok answer's subdomains are shown, a refusal shows its `error` field or the fallback, a throw its message, and the busy flag is cleared |
| SubdomainModal.SubdomainModal.HandleActiveCheck | components/tools/subdomain-modal.tsx:109-158 | with neither a file nor a domain only the error is set; otherwise the file is sent when chosen, else the domain, and the answer is shown as in the enumeration |
| SubdomainModal.SubdomainModal.HandleDownloadResults | components/tools/subdomain-modal.tsx:172-220 | no file without active URLs; otherwise `active-urls-<day>.txt` holding the clean URLs joined with newlines |
| ToolModals.CountHeadingCounts | components/tools/url-crawler-modal.tsx:183 | the counting heading is one line, and its number reads back as the count |
| ToolModals.UrlReportLines | components/tools/url-crawler-modal.tsx:181-184 | no URLs give the modal's 'none' text; otherwise, when no URL holds a newline, the report's lines are the counting heading, a blank line and `• url` per URL in order |
| UrlCrawlerModal.GuardError | components/tools/url-crawler-modal.tsx:68-77 | the request goes out exactly when the single tab has a domain or the batch tab a file; otherwise 'Domain is required' or 'File is required' |
| UrlCrawlerModal.ReportLines | components/tools/url-crawler-modal.tsx:181-184 | 'No URLs found' without results; otherwise the heading 'CRAWLER RESULTS (n URLs found)' whose number reads back as the count, a blank line and `• url` per URL in order |
| UrlCrawlerModal.UrlCrawlerModal.constructor | components/tools/url-crawler-modal.tsx:40-46 | the single tab, nothing typed or chosen, no results, no error, not busy |
| UrlCrawlerModal.UrlCrawlerModal.SetTab | components/tools/url-crawler-modal.tsx:206-211 | switching tabs clears the error and changes nothing else |
| UrlCrawlerModal.UrlCrawlerModal.SetDomain | components/tools/url-crawler-modal.tsx:227-230 | the domain input keeps the trimmed text and drops the chosen file |
| UrlCrawlerModal.UrlCrawlerModal.ClearFile | components/tools/url-crawler-modal.tsx:261 | the remove button drops the chosen file and changes nothing else |
| UrlCrawlerModal.UrlCrawlerModal.HandleFileChange | components/tools/url-crawler-modal.tsx:52-66 | a text file is taken and clears the domain; anything else changes nothing |
| UrlCrawlerModal.UrlCrawlerModal.HandleRunCrawler | components/tools/url-crawler-modal.tsx:68-126 | a failed check sets its message and changes nothing else; otherwise the single tab posts the domain as JSON and the batch tab the file as a form, an ok answer's results (or none) are shown, a refusal shows its `error` field or the fallback, a throw its message, and the busy flag is cleared |
| UrlCrawlerModal.UrlCrawlerModal.HandleDownloadResults | components/tools/url-crawler-modal.tsx:142-179 | no file without results; otherwise named after the file or the domain and the day, and its content is the results joined with newlines, so its lines are the results when none holds a newline |
| DeepCrawlerModal.SanitizeChar | components/tools/deep-crawler-modal.tsx:137 | a character becomes itself exactly when it is an ASCII letter, digit or `-`; the result is made of those and is never empty |
| DeepCrawlerModal.Sanitize | components/tools/deep-crawler-modal.tsx:137 | the sanitised target is made of ASCII letters, digits and `-`, and is never shorter than the target |
| DeepCrawlerModal.SanitizeFixesOnlyFileSafe | components/tools/deep-crawler-modal.tsx:137 | sanitising changes nothing exactly when the target is already letters, digits and dashes, and sanitising twice is sanitising once |
| DeepCrawlerModal.SanitizedIsFixed | components/tools/deep-crawler-modal.tsx:137 | text of letters, digits and dashes is left as it is |
| DeepCrawlerModal.BomIsEncodedByteOrderMark | components/tools/deep-crawler-modal.tsx:132-135 | the three bytes written first are the UTF-8 encoding of U+FEFF |
| DeepCrawlerModal.ReportLines | components/tools/deep-crawler-modal.tsx:161-164 | 'No URLs found' without results; otherwise the heading 'DEEP CRAWLER RESULTS (n URLs found)' whose number reads back as the count, a blank line and `• url` per URL in order |
| DeepCrawlerModal.DeepCrawlerModal.constructor | components/tools/deep-crawler-modal.tsx:40-47 | nothing typed, no results, no error, not busy, the no-results flag down |
| DeepCrawlerModal.DeepCrawlerModal.SetTarget | components/tools/deep-crawler-modal.tsx:191 | the target input keeps the trimmed text and changes nothing else |
| DeepCrawlerModal.DeepCrawlerModal.HandleRunCrawler | components/tools/deep-crawler-modal.tsx:49-108 | an empty target only sets 'Target URL is required'; otherwise the target is posted, the no-results flag is raised exactly when an ok answer has no or an empty results array, an ok answer's URLs are shown, a refusal shows its text or 'Failed to crawl URLs', a throw its message, the busy flag is cleared, and the flag is only ever raised with no results |
| DeepCrawlerModal.DeepCrawlerModal.HandleDownloadResults | components/tools/deep-crawler-modal.tsx:120-160 | refused exactly when there are no results (the flag adds nothing, as it only goes with none); otherwise `deep-crawled-urls-<sanitised target>-<day>.txt`, the byte order mark, and the URLs joined with newlines, so its lines are the URLs when none holds a newline |
| WaybackDorkingModal.GuardError | components/tools/wayback-dorking-modal.tsx:50-59 | the request goes out exactly when the target is non-empty and holds no `://`; a protocol is refused first, then the empty target |
| WaybackDorkingModal.TypedSchemeRemoved | components/tools/wayback-dorking-modal.tsx:195-199 | `http://` or `https://` typed in any mix of cases in front of a domain is removed, and nothing after it is |
| Strings.NonEmpty | components/tools/wayback-dorking-modal.tsx:92 | dropping the empty pieces never lengthens the list |
| Strings.NonEmptyMembers | components/tools/wayback-dorking-modal.tsx:92 | what is kept comes from the pieces, and every non-empty piece is kept |
| Strings.NonEmptyAppend | components/tools/wayback-dorking-modal.tsx:92 | filtering a concatenation filters each part |
| WaybackDorkingModal.Shown | components/tools/wayback-dorking-modal.tsx:92 | every URL shown is non-empty and holds no newline |
| WaybackDorkingModal.ShownEndsWithPartialLine | components/tools/wayback-dorking-modal.tsx:88-93 | the list shown is the non-empty finished lines followed by the text after the last newline, when there is any |
| WaybackDorkingModal.FinishedLinesStay | components/tools/wayback-dorking-modal.tsx:84-94 | lines a newline has finished stay at the head of the list whatever chunk arrives next |
| WaybackDorkingModal.PartialLineReplaced | components/tools/wayback-dorking-modal.tsx:84-94 | a line shown half-received (`ab`) is replaced, not kept, when its rest (`c` and a newline) arrives |
| WaybackDorkingModal.ReadChunks | components/tools/wayback-dorking-modal.tsx:81-94 | after the loop the list is the non-empty lines of all the chunks joined |
| WaybackDorkingModal.ReportLines | components/tools/wayback-dorking-modal.tsx:165-168 | 'No historical URLs found' without results; otherwise the heading 'WAYBACK URL RESULTS (n URLs found)' whose number reads back as the count, a blank line and `• url` per URL in order |
| WaybackDorkingModal.WaybackDorkingModal.constructor | components/tools/wayback-dorking-modal.tsx:41-44 | nothing typed, no results, no error, not busy |
| WaybackDorkingModal.WaybackDorkingModal.SetTarget | components/tools/wayback-dorking-modal.tsx:195-199 | the target keeps the trimmed text with a leading protocol removed, and nothing else changes |
| WaybackDorkingModal.WaybackDorkingModal.HandleRunTool | components/tools/wayback-dorking-modal.tsx:49-112 | a failed check sets its message and changes nothing else; otherwise the target is posted, a refusal shows its `error` field or the fallback, a missing body 'No reader available', a stream its non-empty lines (with the error of a stream that broke off), a throw its message, and the busy flag is cleared; every URL shown stays a non-empty line |
| WaybackDorkingModal.WaybackDorkingModal.HandleDownloadResults | components/tools/wayback-dorking-modal.tsx:128-163 | no file without results; otherwise `wayback-urls-<target>-<day>.txt` whose lines are the results |
| OpenRedirectModal.SchemeLen | components/tools/open-redirect-modal.tsx:54 | the scheme at the front is 8 long exactly for `https://`, 7 exactly for `http://`, and 0 exactly when neither starts the text |
| OpenRedirectModal.SchemesExclusive | components/tools/open-redirect-modal.tsx:54 | no text starts with both schemes |
| OpenRedirectModal.NoUrlAtSpace | components/tools/open-redirect-modal.tsx:54 | no match starts at white space |
| OpenRedirectModal.UrlRunLen | components/tools/open-redirect-modal.tsx:54 | a match starts exactly when the length is positive; it is a scheme followed by non-space characters and ends at white space or at the end of the text |
| OpenRedirectModal.MatchCutTail | components/tools/open-redirect-modal.tsx:52-57 | a cut of the text into copied characters and links stays a cut without its first piece |
| OpenRedirectModal.MatchCutHead | components/tools/open-redirect-modal.tsx:52-57 | a cut's first piece is a character at which no match starts, or a whole match followed by white space or the end |
| OpenRedirectModal.CutConsChar | components/tools/open-redirect-modal.tsx:52-57 | a character at which no match starts, in front of a cut, gives a cut |
| OpenRedirectModal.CutConsLink | components/tools/open-redirect-modal.tsx:52-57 | a whole match followed by white space or nothing, in front of a cut, gives a cut |
| OpenRedirectModal.SegmentsAreMatchCut | components/tools/open-redirect-modal.tsx:52-57 | the left-to-right scan of the global replace cuts the text into copied characters and greedy matches |
| OpenRedirectModal.MatchCutIsSegments | components/tools/open-redirect-modal.tsx:52-57 | that cut is the only one: any cut with those properties is the scan's |
| OpenRedirectModal.LinkLength | components/tools/open-redirect-modal.tsx:54 | a whole match at the front that ends at white space or at the end is exactly what the scan takes |
| OpenRedirectModal.NoUrlNoChange | components/tools/open-redirect-modal.tsx:52-57 | text in which no match starts comes out unchanged, without any HTML escaping |
| OpenRedirectModal.MarkupNotEscaped | components/tools/open-redirect-modal.tsx:222-226 | a tag in the scanner's output reaches the page's HTML as a tag |
| OpenRedirectModal.FirstUrlLinked | components/tools/open-redirect-modal.tsx:52-57 | a match at the front becomes one anchor whose target and text are the whole run, and rendering carries on after it |
| OpenRedirectModal.OpenRedirectModal.constructor | components/tools/open-redirect-modal.tsx:38-41 | nothing typed, no result, no error, not busy |
| OpenRedirectModal.OpenRedirectModal.SetUrl | components/tools/open-redirect-modal.tsx:177 | the URL input keeps the trimmed text and nothing else changes |
| OpenRedirectModal.OpenRedirectModal.HandleRunTool | components/tools/open-redirect-modal.tsx:59-101 | an empty URL only sets 'URL is required'; otherwise the URL is posted, an ok answer's text is stored without its ANSI sequences, a refusal shows its text or the fallback, a throw its message, and the busy flag is cleared |
| OpenRedirectModal.OpenRedirectModal.HandleDownloadResults | components/tools/open-redirect-modal.tsx:117-128 | no file without a result; otherwise `open-redirect-scan-<day>.txt` holding the stored text, without the links |
| CvssCalculator.WeightTable | components/tools/cvss-calculator-modal.tsx:21-72 | every weight lies between 0 and 1, the impact weights for None are 0, and each metric's buttons offer exactly the letters its weight table knows |
| CvssCalculator.SelectedMetric | components/tools/cvss-calculator-modal.tsx:96-103 | a full selection has a known letter for every metric |
| CvssCalculator.Ceil | components/tools/cvss-calculator-modal.tsx:124 | `Math.ceil` gives the least whole number not below its argument |
| CvssCalculator.RoundUpTenth | components/tools/cvss-calculator-modal.tsx:124 | rounding up to one decimal never lowers the score and raises it by less than a tenth |
| CvssCalculator.BaseScoreShape | components/tools/cvss-calculator-modal.tsx:94-125 | the stored score is a whole number of tenths, never above 10, and is the raw score rounded up to the next tenth whenever that raw score is at most 9.9 |
| CvssCalculator.ScopeChangedScore | components/tools/cvss-calculator-modal.tsx:117-121 | with Scope Changed the raw score is `min(1.08 × (impact + exploitability), 10)`, otherwise the plain sum |
| CvssCalculator.PrivilegesIgnoreScope | components/tools/cvss-calculator-modal.tsx:96-106 | the exploitability, and so the Privileges Required weight, is the same under both scopes, unlike section 7.4 of CVSS v3.1 |
| CvssCalculator.PowSmall | components/tools/cvss-calculator-modal.tsx:114 | a power of a number at most 1 in size, with exponent at least 2, is at most its square in size |
| CvssCalculator.AbsProduct | components/tools/cvss-calculator-modal.tsx:114 | the size of a product is the product of the sizes |
| CvssCalculator.ChangedScopeWithoutImpact | components/tools/cvss-calculator-modal.tsx:94-128 | AV:N/AC:L/PR:N/UI:N/S:C/C:N/I:N/A:N, with no impact at all, scores 4.0 and is rated Medium |
| CvssCalculator.NegativeScore | components/tools/cvss-calculator-modal.tsx:94-128 | AV:P/AC:H/PR:H/UI:R/S:C/C:N/I:N/A:N scores -0.1 and is rated None |
| CvssCalculator.Severity | components/tools/cvss-calculator-modal.tsx:131-137 | each of the five ratings is given exactly on its band: 9 and up, 7 to 9, 4 to 7, above 0 to 4, and 0 or below |
| CvssCalculator.SeverityMonotone | components/tools/cvss-calculator-modal.tsx:131-137 | a higher score never gets a lower rating |
| CvssCalculator.TenthsToString | components/tools/cvss-calculator-modal.tsx:167 | the printed score is never empty |
| CvssCalculator.ScoreRenderings | components/tools/cvss-calculator-modal.tsx:167 | 9.8, 10, 0 and -0.1 print as JavaScript prints them |
| CvssCalculator.FormatUnfold | components/tools/cvss-calculator-modal.tsx:158-166 | the metric bullets of the report are those of AV, AC, PR, UI, S, C, I and A in that order |
| CvssCalculator.EightLines | components/tools/cvss-calculator-modal.tsx:158-166 | the bullets of eight metrics are the eight bullets one after the other |
| CvssCalculator.CvssCalculatorModal.constructor | components/tools/cvss-calculator-modal.tsx:75-86 | the default selection AV:N/AC:L/PR:N/UI:N/S:U/C:H/I:H/A:H, score 0 and no rating yet |
| CvssCalculator.CvssCalculatorModal.CalculateCvssScore | components/tools/cvss-calculator-modal.tsx:94-129 | the selection is kept, the stored score is the base score of the selection and the rating is that score's band |
| CvssCalculator.CvssCalculatorModal.HandleMetricChange | components/tools/cvss-calculator-modal.tsx:139-144 | the chosen metric takes the chosen letter, every other metric keeps its letter, and the effect leaves the score and rating of the new selection |
| CvssCalculator.CvssCalculatorModal.FormatResults | components/tools/cvss-calculator-modal.tsx:157-168 | the report is its title, a blank line, the eight metric bullets in the table's order, a blank line, and the score as JavaScript prints it with its rating |
| Tools.CatalogueIds | lib/tools.ts:9-117 | the catalogue holds fifteen tools whose ids are, in order, 4, 1, 2, 3, 11, 12, 5, 6, 7, 8, 9, 10, 15, 16 and 17 |
| Tools.IdsDistinct | lib/tools.ts:9-117 | no two tools share an id |
| Tools.CategoriesAndStatusesKnown | lib/tools.ts:9-117 | every tool's category is one the label table knows, and every status is Available or Under Development |
| Tools.GetCategoryLabel | lib/tools.ts:119-128 | a known category gets its fixed label; any other gets its first character upper-cased and the rest unchanged |
| Tools.EmptyCategoryLabel | lib/tools.ts:127 | the empty category is labelled with the empty string |
| Tools.GetToolIcon | lib/tools.ts:130-134 | the catalogue's icon lookup never gives an icon |
| ToolsSidebar.GroupByCategory | components/tools-sidebar.tsx:41-50 | the groups are listed in the order their categories first appear, there is a group exactly for each category listed, and each group holds the tools of its category in catalogue order |
| ToolsSidebar.CatalogueCategoriesNotIndices | components/tools-sidebar.tsx:94 | no category of the catalogue is an array index, so `Object.entries` lists the groups in insertion order, that is, in the order their categories first appear |
| ToolsSidebar.AddTool | components/tools-sidebar.tsx:42-47 | a tool creates its category's group on first sight and is pushed onto it; no other group changes |
| ToolsSidebar.LoopStep | components/tools-sidebar.tsx:41-50 | one more tool keeps the grouping equal to the grouping of the tools seen so far |
| ToolsSidebar.GroupingStep | components/tools-sidebar.tsx:42-47 | one more tool changes only its own category's group, by appending it |
| ToolsSidebar.NotListedIsEmpty | components/tools-sidebar.tsx:41-50 | a category that is not listed has no tools |
| ToolsSidebar.GroupMembership | components/tools-sidebar.tsx:94-100 | every tool is shown in the group of its own category and in no other, and groups show only catalogue tools |
| ToolsSidebar.CategoriesListed | components/tools-sidebar.tsx:94 | each category is listed once, and exactly the categories that occur are listed |
| ToolsSidebar.CountStep | components/tools-sidebar.tsx:94-100 | adding a tool adds one to the total of the listed groups when its category is listed |
| ToolsSidebar.GroupsCoverCatalogue | components/tools-sidebar.tsx:94-100 | the groups together show exactly as many tools as the catalogue holds |
| ToolsSidebar.ToolIcon | components/tools-sidebar.tsx:53-70 | a mapped name gets its icon, any other name the Braces icon |
| ToolsSidebar.DefaultIconTools | components/tools-sidebar.tsx:53-70 | Nmap Scanner, CVSS Scoring, Wayback Machine Dorking, CORS Misc Scanner and Open Redirect Exploiter have no entry and show Braces |
| ToolsSidebar.StatusColor | components/tools-sidebar.tsx:73-84 | Available is grey, Under Development yellow, Maintenance red, and any other status dim grey |
| MainSidebar.FirstUpper | components/main-sidebar.tsx:52 | the first character upper-cased, or nothing for the empty string |
| MainSidebar.GetInitials | components/main-sidebar.tsx:49-57 | `US` for a missing or empty name; otherwise the upper-cased first character of the text before the first space, followed, when there is a space, by that of the text after the last space; never more than two characters |
| MainSidebar.SingleWordName | components/main-sidebar.tsx:49-57 | a name without a space gives its first character upper-cased |
| MainSidebar.BeforeFirstWhole | components/main-sidebar.tsx:51 | text without the separator is its own first piece |
| MainSidebar.BeforeFirstConcat | components/main-sidebar.tsx:51 | the first piece is the text before the first separator |
| MainSidebar.LastIndexBeforeTail | components/main-sidebar.tsx:51 | the last separator is the one after which no separator follows |
| MainSidebar.InitialsOf | components/main-sidebar.tsx:49-57 | the initials come from the first piece and the text after the last space |
| MainSidebar.InitialsOfSpaced | components/main-sidebar.tsx:49-57 | a spaced name's initials are those of its first and last words |
| MainSidebar.MiddleNamesIgnored | components/main-sidebar.tsx:51-55 | middle names do not change the initials |
| MainSidebar.LeadingSpace | components/main-sidebar.tsx:51-55 | with a leading space the first piece is empty and only the last word's initial is shown |
| CodeFileExtensions.GetFileExtension | lib/code-file-extensions.ts:26-28 | the extension is never empty, is `txt` or one of the table's, and is `txt` for any name the table lacks once lower-cased |
| CodeFileExtensions.TableHasNoEmptyExtension | lib/code-file-extensions.ts:2-24 | no extension in the table is empty, so the `txt` fallback fires only for names it lacks |
| CodeFileExtensions.LookupIgnoresCase | lib/code-file-extensions.ts:27 | a name and its lower-case form get the same extension |
| CodeFileExtensions.KnownLanguage | lib/code-file-extensions.ts:26-28 | a name found in the table once lower-cased gets its entry |
| CodeFileExtensions.AliasesAgree | lib/code-file-extensions.ts:8-22 | the table's aliases agree: bash and shell both give `sh`, markup and html both give `html` |
| CodeFileExtensions.LowerCaseUnchanged | lib/code-file-extensions.ts:27 | lower-casing text without upper-case letters changes nothing |

## Left out

- **struktur.py.** The filesystem is a tree value: `os.listdir`, `os.path.isdir` and `open` are not called. The typed root arrives as a parameter, standing in for the interactive `input`. The console mirror (lines 17, 22 and 25) is not modelled. Nor are symlink loops or Python's recursion limit. Every directory in the tree is taken as listable: outside the `try` of lines 18-25, a failing `os.listdir` (line 7) raises and ends the whole run with a traceback, leaving `output.txt` holding only the lines written so far. That happens for a root that does not exist, for the root `/`, which `rstrip("/")` turns into the empty path, and for any subdirectory that cannot be listed. The model has no such failure.
- **Name order.** Names are compared by code point, as Python compares `str`; locale collation does not apply.
- **Text encoding.** JavaScript strings are UTF-16, while the model's strings are sequences of code points. Only the deep crawler's file-name sanitiser counts UTF-16 code units: it writes two dashes for a character outside the Basic Multilingual Plane. Case mapping (`toLowerCase`, `toUpperCase`, the `i` flag) is modelled for ASCII letters only.
- **Chunk decoding.** `TextDecoder` is not modelled: streamed chunks arrive as already-decoded strings, so a character split across two chunks is not a case the model has.
- **Network and services.** All `fetch` calls, the Flask backend and the `TransformStream` pump loops of the routes are left out. A backend answer is a parameter of the handler or route that receives it, and a streamed body is passed on unchanged.
- **Cancellation.** `AbortController` is left out, along with the url-fuzzer `/cancel` request, the XSS `stopScan` handler with its `/stop` endpoint, and the `X-Session-ID` header the XSS modal keeps for stopping. A cancellation is only one way a stream can end (`Aborted`): it leaves no error and, in the XSS modal, skips the final flush.
- **XSS missing body.** The XSS modal's 'No response body' error reaches the model as a stream that broke off before any chunk, with that message.
- **JSON bodies.** Parse errors are left out, as are fields of the wrong type (a non-string `error`, a non-array `results`). Each JSON answer is reduced to the fields the modal reads.
- **Browser and React.** Toasts are left out, including the completion toasts that read a stale `results` (components/tools/xss-scan-modal.tsx:174-186, components/tools/wayback-dorking-modal.tsx:96-99) and the subdomain `data.count` toast. Also left out: copy to clipboard, the close-confirmation dialogs, `BaseToolModal` and all rendering except the open-redirect HTML string.
- **Downloads.** `Blob`, `URL.createObjectURL` and the anchor click are left out. A download is its file name and content. The date comes in as the `today` parameter in place of `new Date().toISOString().slice(0, 10)`. The `try`/`catch` around each download, whose 'Download failed' toast needs the browser to throw, is left out.
- **Unreachable catches.** The 'Could not format results' branches of the CORS modal (components/tools/cors-scanner-modal.tsx:127-130) and the WAF modal (components/tools/waf-modal.tsx:113-116) are left out. Formatting strings cannot throw there.
- **WAF route TypeError.** The `TypeError` the WAF route would hit from `url.replace` on a non-string `url` is left out, because fields are strings in the model.
- **Routes left out.** The forwarders that only check one field for being non-empty are left out: cors-scanner, deep-crawler, wayback-dorking, open-redirect, whois-lookup, url-crawler and `tools/subdomain/route.ts`. Their checks are the ones the modals make before sending.
- **validateTarget.** Whether `new URL(target)` succeeds is a parameter of `Validators.ValidateTarget`, not a model of the WHATWG URL parser.
- **Ansi.Strip:** the one-parameter SGR sequence (`ESC [ n m`) is proved to be removed. The same property for sequences with two or more parameters is not stated as its own lemma; it follows only from the general matcher definition.
- **UriComponent.EncodeUriComponent:** works on code points. Lone surrogates, for which `encodeURIComponent` throws a `URIError`, do not exist in the model.
- **CvssCalculator.** Arithmetic is over exact reals, not IEEE doubles, so `Math.ceil(score * 10) / 10` has no floating-point error here. Where a double's error would push a product just over a tenth, the browser can show a score one tenth higher than the model's.
- **CvssCalculator.BaseScoreShape:** states that the raw score is rounded up only when that score is at most 9.9; above that, it states only that the result is at most 10.
- **Object-prototype keys.** Keys such as `constructor` or `toString` in `categoryMap`, `languageToExtension`, the icon map and the grouping accumulator are left out. Those tables are finite `map`s.
- **Status codes.** These are natural numbers. A backend status outside the HTTP range has no special case.
- **Lookups.** `Tools.GetToolIcon` is the catalogue's placeholder that always answers `null`. The sidebar's own icon lookup is `ToolsSidebar.ToolIcon`, with icons as names rather than components.
