/**
 * The documentation page's own logic: the search filter applied to each
 * endpoint list, and the expanded/collapsed flags of the sub-sections.
 */
module MainContent {
  import opened Text
  import opened Catalogue

  /** The endpoint's path, description or method contains the term, ignoring ASCII case. */
  predicate Matches(e: EndpointSpec, term: string)
  {
    var t := Lower(term);
    Includes(Lower(e.path), t) || Includes(Lower(e.description), t) || Includes(Lower(e.httpMethod), t)
  }

  /** `endpoints.filter(matches)`: the matching endpoints, in their order. */
  function Keep(endpoints: seq<EndpointSpec>, term: string): seq<EndpointSpec>
  {
    if endpoints == [] then []
    else if Matches(endpoints[0], term) then [endpoints[0]] + Keep(endpoints[1..], term)
    else Keep(endpoints[1..], term)
  }

  /** `filterEndpoints`: the whole list for an empty search term, else the matching endpoints. */
  function FilterEndpoints(endpoints: seq<EndpointSpec>, term: string): (r: seq<EndpointSpec>)
    ensures term == [] ==> r == endpoints
  {
    if term == [] then endpoints else Keep(endpoints, term)
  }

  /** `sub` is `s` with some elements left out and the rest in order. */
  ghost predicate SubsequenceOf<T>(sub: seq<T>, s: seq<T>)
    decreases |s|
  {
    if sub == [] then true
    else if s == [] then false
    else (sub[0] == s[0] && SubsequenceOf(sub[1..], s[1..])) || SubsequenceOf(sub, s[1..])
  }

  lemma {:induction false} KeepMembers(endpoints: seq<EndpointSpec>, term: string)
    ensures forall e :: e in Keep(endpoints, term) <==> e in endpoints && Matches(e, term)
  {
    if endpoints != [] {
      KeepMembers(endpoints[1..], term);
      assert endpoints == [endpoints[0]] + endpoints[1..];
    }
  }

  /** With a non-empty term, an endpoint is listed exactly when it is in the list and matches. */
  lemma FilterMembers(endpoints: seq<EndpointSpec>, term: string)
    requires term != []
    ensures forall e :: e in FilterEndpoints(endpoints, term) <==> e in endpoints && Matches(e, term)
  {
    KeepMembers(endpoints, term);
  }

  lemma {:induction false} KeepSubsequence(endpoints: seq<EndpointSpec>, term: string)
    ensures SubsequenceOf(Keep(endpoints, term), endpoints)
  {
    if endpoints != [] {
      KeepSubsequence(endpoints[1..], term);
      var rest := Keep(endpoints[1..], term);
      if Matches(endpoints[0], term) {
        assert ([endpoints[0]] + rest)[1..] == rest;
      } else {
        SubsequenceSkip(rest, endpoints);
      }
    }
  }

  lemma SubsequenceSkip<T>(sub: seq<T>, s: seq<T>)
    requires s != [] && SubsequenceOf(sub, s[1..])
    ensures SubsequenceOf(sub, s)
  {
  }

  /** The filter keeps the list's order and never adds or repeats an endpoint. */
  lemma FilterIsSubsequence(endpoints: seq<EndpointSpec>, term: string)
    ensures SubsequenceOf(FilterEndpoints(endpoints, term), endpoints)
  {
    if term == [] {
      SubsequenceRefl(endpoints);
    } else {
      KeepSubsequence(endpoints, term);
    }
  }

  lemma {:induction false} SubsequenceRefl<T>(s: seq<T>)
    ensures SubsequenceOf(s, s)
  {
    if s != [] {
      SubsequenceRefl(s[1..]);
    }
  }

  lemma {:induction false} KeepIdempotent(endpoints: seq<EndpointSpec>, term: string)
    ensures Keep(Keep(endpoints, term), term) == Keep(endpoints, term)
  {
    if endpoints != [] {
      KeepIdempotent(endpoints[1..], term);
      var rest := Keep(endpoints[1..], term);
      if Matches(endpoints[0], term) {
        assert ([endpoints[0]] + rest)[1..] == rest;
      }
    }
  }

  /** Filtering a filtered list with the same term changes nothing. */
  lemma FilterIdempotent(endpoints: seq<EndpointSpec>, term: string)
    ensures FilterEndpoints(FilterEndpoints(endpoints, term), term) == FilterEndpoints(endpoints, term)
  {
    if term != [] {
      KeepIdempotent(endpoints, term);
    }
  }

  lemma {:induction false} KeepCaseInsensitive(endpoints: seq<EndpointSpec>, t1: string, t2: string)
    requires Lower(t1) == Lower(t2)
    ensures Keep(endpoints, t1) == Keep(endpoints, t2)
  {
    if endpoints != [] {
      KeepCaseInsensitive(endpoints[1..], t1, t2);
    }
  }

  /** Two search terms that differ only in ASCII letter case select the same endpoints. */
  lemma FilterCaseInsensitive(endpoints: seq<EndpointSpec>, t1: string, t2: string)
    requires Lower(t1) == Lower(t2)
    ensures FilterEndpoints(endpoints, t1) == FilterEndpoints(endpoints, t2)
  {
    if t1 != [] {
      assert |t2| == |Lower(t2)| == |Lower(t1)| == |t1|;
      KeepCaseInsensitive(endpoints, t1, t2);
    } else {
      assert |t2| == |Lower(t2)| == |Lower(t1)| == 0;
    }
  }

  /** `!prev[id]`: a missing flag reads as `undefined`, which negates to `true`. */
  function Toggled(flags: map<string, bool>, id: string): (r: map<string, bool>)
    ensures id in r && r[id] == !(id in flags && flags[id])
    ensures forall k :: k != id ==> (k in r <==> k in flags) && (k in flags ==> r[k] == flags[k])
  {
    flags[id := !(id in flags && flags[id])]
  }

  /** The `isExpanded` a sub-section shows: the stored flag, or `true` when there is none. */
  function ShownExpanded(flags: map<string, bool>, id: string): bool
  {
    if id in flags then flags[id] else true
  }

  /**
   * A section starts expanded; the first toggle stores `true`, so it stays
   * expanded, and only the second toggle collapses it.
   */
  lemma FirstToggleKeepsExpanded(flags: map<string, bool>, id: string)
    requires id !in flags
    ensures ShownExpanded(flags, id)
    ensures ShownExpanded(Toggled(flags, id), id)
    ensures !ShownExpanded(Toggled(Toggled(flags, id), id), id)
  {
  }

  /** Once a flag is stored, two toggles restore the flags exactly. */
  lemma ToggleTwiceRestores(flags: map<string, bool>, id: string)
    requires id in flags
    ensures Toggled(Toggled(flags, id), id) == flags
  {
  }

  /** The `expandedSections` state of the page. */
  class SectionToggles {
    var expandedSections: map<string, bool>

    constructor()
      ensures expandedSections == map[]
    {
      expandedSections := map[];
    }

    /** `toggleSection(id)`. */
    method ToggleSection(id: string)
      modifies this
      ensures expandedSections == Toggled(old(expandedSections), id)
    {
      var current := id in expandedSections && expandedSections[id];
      expandedSections := expandedSections[id := !current];
    }

    function IsExpanded(id: string): bool
      reads this
    {
      ShownExpanded(expandedSections, id)
    }
  }
}
