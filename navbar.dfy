/** Which link of the top navigation bar is highlighted for the current location. */
module Navbar {
  import opened Seqs

  /** The hrefs of the navigation items, in display order. */
  const NavItems: seq<string> := ["/", "/add", "/categories", "/reports"]

  /** The dashboard link matches its exact path only; every other link matches by prefix. */
  predicate IsActive(location: string, href: string) {
    if href == "/" then location == "/" else StartsWith(location, href)
  }

  /** `/` is active only on `/` itself, while `/add` is also active on `/address`. */
  lemma PrefixMatching()
    ensures forall location :: IsActive(location, "/") <==> location == "/"
    ensures IsActive("/address", "/add") && IsActive("/add", "/add")
    ensures !IsActive("/add", "/")
  {
    assert "/address"[..4] == "/add";
  }

  /** Two hrefs that differ within their common length cannot both be prefixes of the same location. */
  lemma DivergentPrefixes(location: string, a: string, b: string, k: int)
    requires 0 <= k < |a| && k < |b| && a[k] != b[k]
    ensures !(StartsWith(location, a) && StartsWith(location, b))
  {
  }

  /** For any location, at most one of the navigation items is active. */
  lemma AtMostOneActive(location: string, i: int, j: int)
    requires 0 <= i < j < |NavItems|
    ensures !(IsActive(location, NavItems[i]) && IsActive(location, NavItems[j]))
  {
    if i == 0 {
      if location == "/" {
        assert !StartsWith(location, NavItems[j]) by {
          assert |NavItems[j]| > 1;
        }
      }
    } else {
      DivergentPrefixes(location, NavItems[i], NavItems[j], 1);
    }
  }
}
