/** Order- and duplicate-insensitive comparison of scope lists. */
module SameSets {
  import opened Ordering

  /** Sorting and removing duplicates decides whether two lists have the same elements. */
  lemma SortDedupDecides(a: seq<string>, b: seq<string>)
    ensures Dedup(SortStrings(a)) == Dedup(SortStrings(b)) <==> Elements(a) == Elements(b)
  {
    SortStringsCorrect(a);
    SortStringsCorrect(b);
    DedupSorted(SortStrings(a));
    DedupSorted(SortStrings(b));
    SameMultisetSameElements(a, SortStrings(a));
    SameMultisetSameElements(b, SortStrings(b));
    if Elements(a) == Elements(b) {
      SortedDistinctUnique(Dedup(SortStrings(a)), Dedup(SortStrings(b)));
    }
  }

  /** `same_set`: sort and dedup local copies, then compare. */
  method SameSet(a: seq<string>, b: seq<string>) returns (same: bool)
    ensures same <==> Elements(a) == Elements(b)
  {
    var x := SortStrings(a);
    x := DedupInPlace(x);
    var y := SortStrings(b);
    y := DedupInPlace(y);
    SortDedupDecides(a, b);
    same := x == y;
  }

  /** `Vec::dedup`, one pass that keeps an element unless it equals the last one kept. */
  method DedupInPlace(s: seq<string>) returns (kept: seq<string>)
    ensures kept == Dedup(s)
  {
    kept := [];
    if s == [] {
      return;
    }
    kept := [s[0]];
    for i := 1 to |s|
      invariant kept != [] && kept[|kept| - 1] == s[i - 1]
      invariant Dedup(s) == kept[..|kept| - 1] + Dedup(s[i - 1..])
    {
      assert s[i - 1..][1..] == s[i..];
      if s[i] != s[i - 1] {
        assert kept == kept[..|kept| - 1] + [s[i - 1]];
        kept := kept + [s[i]];
      }
    }
    assert kept == kept[..|kept| - 1] + [s[|s| - 1]];
  }

  datatype CreateRequest = CreateRequest(
    tenant: string, agentName: string, ownerTeam: string, scopeEnvelope: seq<string>, yellowEnvelope: seq<string>,
    attestationKinds: seq<string>, description: string)

  datatype AgentRecord = AgentRecord(
    tenant: string, agentName: string, ownerTeam: string, scopeEnvelope: seq<string>, yellowEnvelope: seq<string>,
    attestationKindsAccepted: seq<string>, description: string)

  /** The request would land the row already in place; descriptions do not count. */
  ghost predicate SameAgent(request: CreateRequest, record: AgentRecord) {
    && request.tenant == record.tenant && request.agentName == record.agentName && request.ownerTeam == record.ownerTeam
    && Elements(request.scopeEnvelope) == Elements(record.scopeEnvelope)
    && Elements(request.yellowEnvelope) == Elements(record.yellowEnvelope)
    && Elements(request.attestationKinds) == Elements(record.attestationKindsAccepted)
  }

  /**
   A request that matches a record keeps matching exactly while the changed field still agrees: as a set for the three
   envelopes, exactly for tenant, name and team, and in any way for the description.
   */
  lemma MatchTampered(request: CreateRequest, record: AgentRecord, other: CreateRequest)
    requires SameAgent(request, record)
    ensures SameAgent(request.(tenant := other.tenant), record) <==> other.tenant == record.tenant
    ensures SameAgent(request.(agentName := other.agentName), record) <==> other.agentName == record.agentName
    ensures SameAgent(request.(ownerTeam := other.ownerTeam), record) <==> other.ownerTeam == record.ownerTeam
    ensures SameAgent(request.(scopeEnvelope := other.scopeEnvelope), record) <==>
              forall x :: x in other.scopeEnvelope <==> x in record.scopeEnvelope
    ensures SameAgent(request.(yellowEnvelope := other.yellowEnvelope), record) <==>
              forall x :: x in other.yellowEnvelope <==> x in record.yellowEnvelope
    ensures SameAgent(request.(attestationKinds := other.attestationKinds), record) <==>
              forall x :: x in other.attestationKinds <==> x in record.attestationKindsAccepted
    ensures SameAgent(request.(description := other.description), record)
  {
    SameElements(other.scopeEnvelope, record.scopeEnvelope);
    SameElements(other.yellowEnvelope, record.yellowEnvelope);
    SameElements(other.attestationKinds, record.attestationKindsAccepted);
  }

  lemma SameElements(a: seq<string>, b: seq<string>)
    ensures Elements(a) == Elements(b) <==> forall x :: x in a <==> x in b
  {
    if Elements(a) == Elements(b) {
      forall x ensures x in a <==> x in b {
        assert x in a <==> x in Elements(a);
        assert x in b <==> x in Elements(b);
      }
    }
  }

  /** `create_request_matches`. */
  method CreateRequestMatches(request: CreateRequest, record: AgentRecord) returns (matches: bool)
    ensures matches <==> SameAgent(request, record)
  {
    if request.tenant != record.tenant || request.agentName != record.agentName
       || request.ownerTeam != record.ownerTeam {
      return false;
    }
    var scope := SameSet(request.scopeEnvelope, record.scopeEnvelope);
    if !scope {
      return false;
    }
    var yellow := SameSet(request.yellowEnvelope, record.yellowEnvelope);
    if !yellow {
      return false;
    }
    matches := SameSet(request.attestationKinds, record.attestationKindsAccepted);
  }
}
