/**
 * The ontology (the ordered list of hierarchy tiers) and the derivation of a
 * tier's collection endpoint from its plural label, shared by the hierarchy
 * controller and the hierarchy page.
 */
module Ontology {
  import opened Js

  /** One characteristic (field description) of a tier: its field label and XML-schema datatype. */
  datatype Characteristic = Characteristic(fieldLabel: string, dataType: string)

  /** One tier of the ontology; its identity is its position in the tier list. */
  datatype Tier = Tier(name: string, plural: string, characteristics: seq<Characteristic>)

  /** Base URL of the remote metadata database services. */
  const DataRemote := "http://sensor.nevada.edu/Services/NRDC/Infrastructure/Services/"

  /** Index just past the run of spaces that starts at `i` (or `i` itself when `s[i]` is no space). */
  function SpaceRunEnd(s: string, i: nat): (j: nat)
    requires i <= |s|
    ensures i <= j <= |s|
    ensures forall k :: i <= k < j ==> s[k] == ' '
    ensures j < |s| ==> s[j] != ' '
    decreases |s| - i
  {
    if i < |s| && s[i] == ' ' then SpaceRunEnd(s, i + 1) else i
  }

  /**
   * `s.replace(/ +/g, "")`: scanning left to right, every maximal run of
   * spaces is one match and is replaced by nothing; other characters are kept.
   */
  function StripSpaces(s: string): (r: string)
    ensures ' ' !in r
    ensures |r| <= |s|
    decreases |s|
  {
    if s == [] then []
    else if s[0] == ' ' then StripSpaces(s[SpaceRunEnd(s, 0)..])
    else [s[0]] + StripSpaces(s[1..])
  }

  /** What survives of one character: nothing for a space, the character otherwise. */
  function Kept(c: char): string {
    if c == ' ' then [] else [c]
  }

  /** Reference definition: the characters of `s` other than spaces, in order. */
  function NonSpace(s: string): (r: string)
    ensures ' ' !in r
    decreases |s|
  {
    if s == [] then [] else Kept(s[0]) + NonSpace(s[1..])
  }

  /** Every character other than a space survives, as often as it occurs. */
  lemma {:induction false} NonSpaceKeepsOthers(s: string)
    ensures multiset(NonSpace(s)) == multiset(s)[' ' := 0]
    decreases |s|
  {
    if s != [] {
      assert s == [s[0]] + s[1..];
      NonSpaceKeepsOthers(s[1..]);
    }
  }

  lemma {:induction false} NonSpaceSkipsSpaces(s: string, j: nat)
    requires j <= |s|
    requires forall k :: 0 <= k < j ==> s[k] == ' '
    ensures NonSpace(s) == NonSpace(s[j..])
    decreases j
  {
    if j > 0 {
      assert s[1..][j - 1..] == s[j..];
      NonSpaceSkipsSpaces(s[1..], j - 1);
    }
  }

  /** Removing space runs one match at a time removes exactly the spaces and nothing else. */
  lemma {:induction false} StripSpacesIsNonSpace(s: string)
    ensures StripSpaces(s) == NonSpace(s)
    decreases |s|
  {
    if s != [] {
      if s[0] == ' ' {
        var j := SpaceRunEnd(s, 0);
        NonSpaceSkipsSpaces(s, j);
        StripSpacesIsNonSpace(s[j..]);
      } else {
        StripSpacesIsNonSpace(s[1..]);
      }
    }
  }

  /** Space removal distributes over concatenation: characters keep their order. */
  lemma {:induction false} NonSpaceAppend(a: string, b: string)
    ensures NonSpace(a + b) == NonSpace(a) + NonSpace(b)
    decreases |a|
  {
    if a != [] {
      calc {
        NonSpace(a + b);
        { assert (a + b)[0] == a[0]; assert (a + b)[1..] == a[1..] + b; }
        Kept(a[0]) + NonSpace(a[1..] + b);
        { NonSpaceAppend(a[1..], b); }
        Kept(a[0]) + (NonSpace(a[1..]) + NonSpace(b));
        (Kept(a[0]) + NonSpace(a[1..])) + NonSpace(b);
        NonSpace(a) + NonSpace(b);
      }
    } else {
      assert a + b == b;
    }
  }

  /** The service root of a tier's collection, `base + name + ".svc/"`. */
  function ServiceUri(base: string, plural: string): string {
    base + StripSpaces(plural) + ".svc/"
  }

  /** The URL the records of a tier are fetched from, `base + name + ".svc/Get"`. */
  function GetUri(base: string, plural: string): string {
    ServiceUri(base, plural) + "Get"
  }

  /**
   * A fetch URL reads back as the base, then the tier's label with its
   * spaces removed, then ".svc/Get".
   */
  lemma GetUriParts(base: string, plural: string)
    ensures var u := GetUri(base, plural);
      && |u| == |base| + |StripSpaces(plural)| + 8
      && u[..|base|] == base
      && u[|base|..|u| - 8] == StripSpaces(plural)
      && u[|u| - 8..] == ".svc/Get"
  {
  }

  /** Two tiers share a fetch URL exactly when their labels agree once spaces are removed. */
  lemma GetUriSameExactlyWhenNamesAgree(base: string, p: string, q: string)
    ensures GetUri(base, p) == GetUri(base, q) <==> NonSpace(p) == NonSpace(q)
  {
    StripSpacesIsNonSpace(p);
    StripSpacesIsNonSpace(q);
    GetUriParts(base, p);
    GetUriParts(base, q);
  }
}
