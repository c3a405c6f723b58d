/**
 * The subdomain-enumeration API route (app/api/tools/subdomain/enumeration/route.ts): `POST`
 * validates the `domain` of a JSON body, forwards it to the backend and returns the backend's
 * output both whole and split into subdomains.
 */
module EnumerationRoute {
  import opened Wrappers
  import opened Strings
  import opened Routes
  import Validators

  /** The JSON `{ success: true, subdomains, rawOutput }` sent back. */
  datatype EnumerationReply = EnumerationReply(success: bool, subdomains: seq<string>, rawOutput: string)

  /** `output.split('\n').filter(Boolean)` */
  function Subdomains(output: string): (subdomains: seq<string>)
    ensures forall k :: 0 <= k < |subdomains| ==> subdomains[k] != "" && '\n' !in subdomains[k]
  {
    var pieces := Split(output, '\n');
    SplitJoin(output, '\n');
    NonEmptyMembers(pieces);
    NonEmpty(pieces)
  }

  /** Output whose every line is non-empty splits into exactly its lines: joining the subdomains
      with newlines gives the output back. */
  lemma SubdomainsJoinBack(output: string)
    requires forall k :: 0 <= k < |Split(output, '\n')| ==> Split(output, '\n')[k] != ""
    ensures Join(Subdomains(output), "\n") == output
  {
    SplitJoin(output, '\n');
    NonEmptyKeepsAll(Split(output, '\n'));
  }

  /** Lines of the output in order, with empty lines between them dropped. */
  lemma SubdomainsOfLines(a: string, b: string)
    requires a != "" && b != "" && '\n' !in a && '\n' !in b
    ensures Subdomains(a + "\n\n" + b + "\n") == [a, b]
  {
    JoinSplit([a, "", b, ""], '\n');
    assert Join([a, "", b, ""], "\n") == a + "\n\n" + b + "\n" by {
      assert Join([a, "", b, ""], "\n") == a + "\n" + Join(["", b, ""], "\n");
      assert Join(["", b, ""], "\n") == "" + "\n" + Join([b, ""], "\n");
      assert Join([b, ""], "\n") == b + "\n" + Join([""], "\n");
    }
    assert NonEmpty([a, "", b, ""]) == [a] + NonEmpty([b, ""]) by {
      assert [a, "", b, ""][1..] == ["", b, ""];
      assert ["", b, ""][1..] == [b, ""];
    }
    assert NonEmpty([b, ""]) == [b] by {
      assert [b, ""][1..] == [""];
      assert [""][1..] == [];
    }
  }

  /** `POST` with the domain of the JSON body and the backend's answer (its `output`). */
  function Post(domain: Option<string>, upstream: Upstream<string>): (r: Response<EnumerationReply>)
    ensures !Validators.ValidateDomain(domain).valid ==>
      r == Response(400, ErrorJson(Validators.ValidateDomain(domain).message.value))
    ensures Validators.ValidateDomain(domain).valid && upstream.Failed? ==>
      r.status == upstream.status && r.body.ErrorJson? && r.body.error != ""
    ensures Validators.ValidateDomain(domain).valid && upstream.Ok? ==>
      r == Response(200, Json(EnumerationReply(true, Subdomains(upstream.value), upstream.value)))
    ensures Validators.ValidateDomain(domain).valid && upstream.Threw? ==> r.status == 500 && r.body.ErrorJson?
    ensures r.body.Json? ==> domain.Some? && Validators.MatchesDomainRegex(domain.value)
  {
    var verdict := Validators.ValidateDomain(domain);
    if !verdict.valid then Response(400, ErrorJson(verdict.message.value))
    else
      match upstream
      case Failed(status, text) => Response(status, ErrorJson(OrElse(text, "Failed to enumerate subdomains")))
      case Ok(output) => Response(200, Json(EnumerationReply(true, Subdomains(output), output)))
      case Threw(e) => Response(500, ErrorJson(ThrownMessage(e, "Internal server error")))
  }

  /** A missing or empty domain is refused before the backend is asked. */
  lemma MissingDomainRefused(upstream: Upstream<string>)
    ensures Post(None, upstream) == Response(400, ErrorJson("Domain is required"))
    ensures Post(Some(""), upstream) == Response(400, ErrorJson("Domain is required"))
  {
  }
}
