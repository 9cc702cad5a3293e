/**
 * The name normalisation both scrapers use for event identifiers:
 * `s.toLowerCase().replace(/[^a-z0-9]/g, '_').replace(/_+/g, '_').substring(0, n)`.
 */
module EventIds {
  import opened Text

  /** Every character is in `[a-z0-9_]`. */
  predicate IdChars(s: string)
  {
    forall i :: 0 <= i < |s| ==> IsLowerAlnum(s[i]) || s[i] == '_'
  }

  /** No run `__` anywhere. */
  predicate NoDoubleUnderscore(s: string)
  {
    forall i :: 0 <= i < |s| - 1 ==> !(s[i] == '_' && s[i + 1] == '_')
  }

  /** `.replace(/[^a-z0-9]/g, '_')`. */
  function Underscore(s: string): (r: string)
    ensures |r| == |s| && IdChars(r)
    ensures forall i :: 0 <= i < |s| ==> r[i] == if IsLowerAlnum(s[i]) then s[i] else '_'
  {
    if s == [] then [] else [if IsLowerAlnum(s[0]) then s[0] else '_'] + Underscore(s[1..])
  }

  /** `.replace(/_+/g, '_')`: every run of underscores becomes one underscore. */
  function Collapse(s: string): (r: string)
    ensures |r| <= |s|
    ensures s != [] ==> r != [] && r[0] == s[0]
    ensures forall c :: c in r <==> c in s
    ensures forall c :: c != '_' ==> multiset(r)[c] == multiset(s)[c]
    ensures NoDoubleUnderscore(r)
  {
    if |s| <= 1 then s
    else
      assert s == [s[0]] + s[1..];
      if s[0] == '_' && s[1] == '_' then Collapse(s[1..])
      else [s[0]] + Collapse(s[1..])
  }

  /** The normalised name at most `n` characters long. */
  function CleanName(s: string, n: nat): (r: string)
    ensures |r| <= n
    ensures IdChars(r) && NoDoubleUnderscore(r)
  {
    var u := Underscore(ToLower(s));
    var c := Collapse(u);
    assert IdChars(c) by {
      forall i | 0 <= i < |c| ensures IsLowerAlnum(c[i]) || c[i] == '_' {
        assert c[i] in c;
      }
    }
    Take(c, n)
  }
}
