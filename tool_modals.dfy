/**
 * What the tool modals under components/tools/ share: the file picked in a file input, the
 * backend's answer as the modals see it, and a download.
 */
module ToolModals {
  import opened Wrappers
  import opened Strings

  /** The file chosen in an `<input type="file">`: its name and MIME type. */
  datatype SelectedFile = SelectedFile(name: string, mimeType: string)

  /** `file.type === "text/plain" || file.name.endsWith('.txt')` */
  predicate IsTextFile(f: SelectedFile) {
    f.mimeType == "text/plain" || EndsWith(f.name, ".txt")
  }

  /** How reading a streamed response ended: normally (the reader is done, or the loop saw the
      abort flag), by an `AbortError`, or by any other error with its message. */
  datatype StreamEnd = Finished | Aborted | Broken(message: string)

  /** The text chunks read before the stream ended, in order. */
  datatype Stream = Stream(chunks: seq<string>, end: StreamEnd)

  /** The backend's answer: a failed response with the `error` field of its JSON body, if it has
      one, or a successful one carrying `data`. */
  datatype Reply<T> = Rejected(errorField: Option<string>) | Answered(data: T)

  /** `errorData.error || fallback`: an absent or empty message falls back. */
  function ErrorMessage(errorField: Option<string>, fallback: string): (r: string)
    ensures errorField.Some? && errorField.value != "" ==> r == errorField.value
    ensures errorField.None? || errorField.value == "" ==> r == fallback
  {
    if errorField.Some? && errorField.value != "" then errorField.value else fallback
  }

  /** The error a streamed run leaves shown: the rejection's message (or `fallback`), the message
      of an error that broke the stream, and none after a finished or cancelled stream. */
  function StreamError(reply: Reply<Stream>, fallback: string): (r: Option<string>)
    ensures reply.Rejected? ==> r.Some? && (r.value == fallback || Some(r.value) == reply.errorField)
    ensures reply.Answered? ==> (r.Some? <==> reply.data.end.Broken?)
  {
    match reply
    case Rejected(field) => Some(ErrorMessage(field, fallback))
    case Answered(stream) =>
      match stream.end
      case Broken(message) => Some(message)
      case _ => None
  }

  /** A text file handed to the browser: its name and content. */
  datatype Download = Download(fileName: string, content: string)

  /** `items.map(x => `• ${x}`)` */
  function Bullets(items: seq<string>): (bullets: seq<string>)
    ensures |bullets| == |items|
    ensures forall k :: 0 <= k < |items| ==> bullets[k] == "\U{2022} " + items[k]
  {
    Wrap(items, "\U{2022} ", "")
  }

  /** A heading, a blank line and the lines of `items`: `${heading}\n\n${items.join('\n')}`. */
  function Listing(heading: string, items: seq<string>): string {
    heading + "\n\n" + Join(items, "\n")
  }

  /** A heading and a blank line in front of joined lines, with any separator `nl`. */
  lemma JoinUnderHeading(heading: string, items: seq<string>, nl: string)
    requires |items| >= 1
    ensures Join([heading, ""] + items, nl) == heading + (nl + nl) + Join(items, nl)
  {
    JoinAppend([heading, ""], items, nl);
    assert Join([heading, ""], nl) == heading + nl by {
      JoinCons(heading, [""], nl);
    }
    ConcatAssoc(heading, nl, nl);
  }

  /** A listing is its heading, a blank line and its items, joined with newlines. */
  lemma ListingIsJoin(heading: string, items: seq<string>)
    requires |items| >= 1
    ensures Listing(heading, items) == Join([heading, ""] + items, "\n")
  {
    JoinUnderHeading(heading, items, "\n");
    assert "\n" + "\n" == "\n\n";
  }

  /** When no line holds a newline, splitting a listing on newlines gives back its heading, the
      blank line and the items, in order. */
  lemma ListingLines(heading: string, items: seq<string>)
    requires |items| >= 1 && '\n' !in heading
    requires forall k :: 0 <= k < |items| ==> '\n' !in items[k]
    ensures Split(Listing(heading, items), '\n') == [heading, ""] + items
  {
    ListingIsJoin(heading, items);
    var lines := [heading, ""] + items;
    assert forall k :: 0 <= k < |lines| ==> '\n' !in lines[k] by {
      forall k | 2 <= k < |lines| ensures '\n' !in lines[k] {
        assert lines[k] == items[k - 2];
      }
    }
    JoinSplit(lines, '\n');
  }

  /** A listing followed by a blank line and a footer line splits into the listing's lines, the
      blank line and the footer. */
  lemma ListingWithFooterLines(heading: string, items: seq<string>, footer: string)
    requires |items| >= 1 && '\n' !in heading && '\n' !in footer
    requires forall k :: 0 <= k < |items| ==> '\n' !in items[k]
    ensures Split(Listing(heading, items) + "\n\n" + footer, '\n') == [heading, ""] + items + ["", footer]
  {
    var lines := [heading, ""] + items + ["", footer];
    assert Join(lines, "\n") == Listing(heading, items) + "\n\n" + footer by {
      ListingIsJoin(heading, items);
      JoinAppend([heading, ""] + items, ["", footer], "\n");
      assert Join(["", footer], "\n") == "\n" + footer by {
        JoinCons("", [footer], "\n");
      }
      ConcatAssoc(Listing(heading, items) + "\n", "\n", footer);
      assert "\n" + "\n" == "\n\n";
    }
    assert forall k :: 0 <= k < |lines| ==> '\n' !in lines[k] by {
      forall k | 2 <= k < |lines| - 2 ensures '\n' !in lines[k] {
        assert lines[k] == items[k - 2];
      }
    }
    JoinSplit(lines, '\n');
  }

  /** The heading of a non-empty URL listing: `${title} (${n} URLs found)`. */
  function CountHeading(title: string, n: nat): string {
    title + " (" + NatToString(n) + " URLs found)"
  }

  /** The `formatResults` of the URL-listing modals: `none` when nothing was found, otherwise a
      heading that counts the URLs and one bullet per URL. */
  function UrlReport(title: string, none: string, urls: seq<string>): string {
    if |urls| == 0 then none else Listing(CountHeading(title, |urls|), Bullets(urls))
  }

  /** A one-line title gives a one-line heading, and the number in it reads back as the count. */
  lemma CountHeadingCounts(title: string, n: nat)
    requires '\n' !in title
    ensures '\n' !in CountHeading(title, n)
    ensures var digits := CountHeading(title, n)[|title| + 2..|title| + 2 + |NatToString(n)|];
      AllDigits(digits) && DigitsValue(digits) == n
  {
    NatToStringValue(n);
    var h := CountHeading(title, n);
    assert h[|title| + 2..|title| + 2 + |NatToString(n)|] == NatToString(n);
    assert '\n' !in " (" && '\n' !in " URLs found)";
  }

  /** With no newline in the title or the URLs, a report of at least one URL splits into the
      counting heading, a blank line and `• url` for each URL in order. */
  lemma UrlReportLines(title: string, none: string, urls: seq<string>)
    requires '\n' !in title
    requires forall k :: 0 <= k < |urls| ==> '\n' !in urls[k]
    ensures |urls| == 0 ==> UrlReport(title, none, urls) == none
    ensures |urls| > 0 ==>
      Split(UrlReport(title, none, urls), '\n') == [CountHeading(title, |urls|), ""] + Bullets(urls)
  {
    if |urls| > 0 {
      var bullets := Bullets(urls);
      assert forall k :: 0 <= k < |bullets| ==> '\n' !in bullets[k] by {
        forall k | 0 <= k < |bullets| ensures '\n' !in bullets[k] {
          assert bullets[k] == "\U{2022} " + urls[k];
        }
      }
      assert '\n' !in CountHeading(title, |urls|) by { CountHeadingCounts(title, |urls|); }
      ListingLines(CountHeading(title, |urls|), bullets);
    }
  }
}
