/** The searcher registry of a mapping class: `searchables`,
    `has_searcher` and `get_searcher`. `re.match(pattern, s)` is a
    collaborator: `rematch(pattern, s)` says whether the pattern matches at
    the start of `s`. */
module Searchables {
  import opened Values
  import opened Plans
  import opened Exceptions
  import opened Attributes

  /** A mapping class's `FhirMap`: its attributes in declaration order. */
  type FhirMap = seq<(string, Attribute)>

  /** The registry key of an attribute: its search regex when it has one,
      else its name. */
  function SearchKey(name: string, a: Attribute): string
  {
    if a.searchRegex.Some? then a.searchRegex.value else name
  }

  /** The registry `searchables` builds: every attribute with a searcher is
      put under its key; a key registered again keeps its first position and
      takes the later searcher. */
  function Registry(m: FhirMap): seq<(string, Searcher)>
  {
    if m == [] then []
    else
      var init := Registry(m[..|m| - 1]);
      var (name, a) := m[|m| - 1];
      if a.searcher.Some? then Put(init, SearchKey(name, a), a.searcher.value) else init
  }

  /** `searchables()`: the loop over the FhirMap's attributes. */
  method SearchablesOf(m: FhirMap) returns (searchables: seq<(string, Searcher)>)
    ensures searchables == Registry(m)
  {
    searchables := [];
    var i := 0;
    while i < |m|
      invariant 0 <= i <= |m|
      invariant searchables == Registry(m[..i])
    {
      assert m[..i + 1][..i] == m[..i];
      var (name, prop) := m[i];
      if prop.searcher.Some? {
        searchables := Put(searchables, SearchKey(name, prop), prop.searcher.value);
      }
      i := i + 1;
    }
    assert m[..|m|] == m;
  }

  /** The searcher last registered under a key, scanning the FhirMap from
      the end: an independent statement of which searcher a key holds. */
  function LastSearcher(m: FhirMap, key: string): Option<Searcher>
  {
    if m == [] then None
    else
      var (name, a) := m[|m| - 1];
      if a.searcher.Some? && SearchKey(name, a) == key then a.searcher
      else LastSearcher(m[..|m| - 1], key)
  }

  /** A key of the registry holds the searcher of the last attribute
      registered under it, and a key nobody registered holds nothing. */
  lemma {:induction false} RegistryHoldsLast(m: FhirMap, key: string)
    ensures Lookup(Registry(m), key) == LastSearcher(m, key)
  {
    if m != [] {
      var (name, a) := m[|m| - 1];
      RegistryHoldsLast(m[..|m| - 1], key);
      if a.searcher.Some? {
        LookupPut(Registry(m[..|m| - 1]), SearchKey(name, a), a.searcher.value, key);
      }
    }
  }

  /** `has_searcher(s)`: some registry key matches at the start of `s`. */
  function HasSearcher(reg: seq<(string, Searcher)>, s: string, rematch: (string, string) -> bool): (r: bool)
    ensures r <==> exists i :: 0 <= i < |reg| && rematch(reg[i].0, s)
  {
    if reg == [] then false
    else if rematch(reg[0].0, s) then true
    else
      var rest := HasSearcher(reg[1..], s, rematch);
      assert forall i :: 1 <= i < |reg| ==> reg[i] == reg[1..][i - 1];
      rest
  }

  /** The position of the first registry key that matches `s`. */
  function FirstMatch(reg: seq<(string, Searcher)>, s: string, rematch: (string, string) -> bool): (r: Option<nat>)
    ensures r.None? <==> !HasSearcher(reg, s, rematch)
    ensures r.Some? ==> r.value < |reg| && rematch(reg[r.value].0, s) &&
                        forall j :: 0 <= j < r.value ==> !rematch(reg[j].0, s)
  {
    if reg == [] then None
    else if rematch(reg[0].0, s) then Some(0)
    else
      match FirstMatch(reg[1..], s, rematch)
      case None => None
      case Some(k) =>
        assert forall j :: 1 <= j < |reg| ==> reg[j] == reg[1..][j - 1];
        Some(k + 1)
  }

  /** `get_searcher(s)`: the searcher of the first matching key in
      registration order; none matching raises AttributeError. */
  function GetSearcher(reg: seq<(string, Searcher)>, s: string, rematch: (string, string) -> bool): (r: Result<Searcher>)
    ensures r.Ok? <==> HasSearcher(reg, s, rematch)
    ensures r.Err? ==> r.error == Raised(AttributeError, "Searcher does not exist: " + s)
    ensures r.Ok? ==> exists i :: 0 <= i < |reg| && rematch(reg[i].0, s) && r.value == reg[i].1 &&
                                  forall j :: 0 <= j < i ==> !rematch(reg[j].0, s)
  {
    match FirstMatch(reg, s, rematch)
    case None => Err(Raised(AttributeError, "Searcher does not exist: " + s))
    case Some(i) => Ok(reg[i].1)
  }
}
