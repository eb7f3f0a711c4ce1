/** String helpers shared by the amount parser and the amount formatter. */
module Text {
  /** s with every space removed, the other characters kept in order. */
  function StripSpaces(s: string): (r: string)
    ensures ' ' !in r
    ensures |r| <= |s|
  {
    if s == [] then [] else (if s[0] == ' ' then [] else [s[0]]) + StripSpaces(s[1..])
  }

  /** Only spaces are removed: every other character keeps its number of occurrences. */
  lemma {:induction false} StripSpacesKeepsOthers(s: string, c: char)
    requires c != ' '
    ensures multiset(StripSpaces(s))[c] == multiset(s)[c]
    decreases |s|
  {
    if s != [] {
      assert s == [s[0]] + s[1..];
      StripSpacesKeepsOthers(s[1..], c);
    }
  }

  lemma {:induction false} StripSpacesAppend(a: string, b: string)
    ensures StripSpaces(a + b) == StripSpaces(a) + StripSpaces(b)
    decreases |a|
  {
    if a != [] {
      assert (a + b)[1..] == a[1..] + b;
      StripSpacesAppend(a[1..], b);
    } else {
      assert a + b == b;
    }
  }

  /** A string without spaces is its own stripped form, so stripping is idempotent. */
  lemma {:induction false} StripSpacesOfSpaceFree(s: string)
    ensures ' ' !in s ==> StripSpaces(s) == s
    decreases |s|
  {
    if s != [] {
      assert s == [s[0]] + s[1..];
      StripSpacesOfSpaceFree(s[1..]);
    }
  }

  lemma StripSpacesIdempotent(s: string)
    ensures StripSpaces(StripSpaces(s)) == StripSpaces(s)
  {
    StripSpacesOfSpaceFree(StripSpaces(s));
  }

  function Reverse<T>(s: seq<T>): (r: seq<T>)
    ensures |r| == |s|
    ensures forall i :: 0 <= i < |s| ==> r[i] == s[|s| - 1 - i]
  {
    if s == [] then [] else Reverse(s[1..]) + [s[0]]
  }

  lemma ReverseAppend<T>(a: seq<T>, b: seq<T>)
    ensures Reverse(a + b) == Reverse(b) + Reverse(a)
  {
  }

  lemma ReverseReverse<T>(s: seq<T>)
    ensures Reverse(Reverse(s)) == s
  {
  }

  lemma StripSpacesOfSpace()
    ensures StripSpaces(" ") == []
  {
    var sp: string := " ";
    assert sp[1..] == [];
  }

  /** A space joining two strings vanishes. */
  lemma StripJoin(a: string, b: string)
    ensures StripSpaces(a + " " + b) == StripSpaces(a) + StripSpaces(b)
  {
    var sp: string := " ";
    StripSpacesOfSpace();
    StripSpacesAppend(a + sp, b);
    StripSpacesAppend(a, sp);
    assert StripSpaces(a) + [] == StripSpaces(a);
  }

  /** The space between two space-free words vanishes. */
  lemma StripAroundSpace(a: string, b: string)
    requires ' ' !in a && ' ' !in b
    ensures StripSpaces(a + " " + b) == a + b
  {
    var sp: string := " ";
    StripSpacesOfSpace();
    StripSpacesAppend(a + sp, b);
    StripSpacesAppend(a, sp);
    StripSpacesOfSpaceFree(a);
    StripSpacesOfSpaceFree(b);
    assert a + [] == a;
  }
}
