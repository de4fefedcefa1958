/**
 * Text handling of the dispatcher: upper-casing of intent names and
 * spoken input names, and the removal of spaces from input names.
 * Upper-casing is modelled on ASCII letters only.
 */
module Text {

  predicate IsLower(c: char) {
    'a' <= c <= 'z'
  }

  /** ASCII upper-casing of one character; every other character is kept. */
  function UpperChar(c: char): (u: char)
    ensures !IsLower(u)
    ensures IsLower(c) ==> u as int == c as int - 32
    ensures !IsLower(c) ==> u == c
  {
    if IsLower(c) then (c as int - 32) as char else c
  }

  /** Upper-casing of a whole string, character by character. */
  function ToUpper(s: string): (r: string)
    ensures |r| == |s|
    ensures forall i :: 0 <= i < |s| ==> r[i] == UpperChar(s[i])
  {
    if s == [] then [] else [UpperChar(s[0])] + ToUpper(s[1..])
  }

  /** Every space removed, every other character kept in order. */
  function RemoveSpaces(s: string): (r: string)
    ensures ' ' !in r
    ensures |r| <= |s|
    ensures forall c :: c in r <==> c in s && c != ' '
  {
    if s == [] then []
    else (if s[0] == ' ' then [] else [s[0]]) + RemoveSpaces(s[1..])
  }

  /** Space removal keeps every other character as often as it occurs. */
  lemma {:induction false} RemoveSpacesMultiset(s: string)
    ensures multiset(RemoveSpaces(s)) == multiset(s)[' ' := 0]
  {
    if s != [] {
      assert s == [s[0]] + s[1..];
      RemoveSpacesMultiset(s[1..]);
    }
  }

  /** Space removal works piecewise, so the kept characters stay in their order. */
  lemma {:induction false} RemoveSpacesAppend(a: string, b: string)
    ensures RemoveSpaces(a + b) == RemoveSpaces(a) + RemoveSpaces(b)
  {
    if a != [] {
      assert (a + b)[0] == a[0] && (a + b)[1..] == a[1..] + b;
      RemoveSpacesAppend(a[1..], b);
    } else {
      assert a + b == b;
    }
  }

  /** The normalisation an input name gets before alias resolution: upper-case, then drop spaces. */
  function NormaliseInput(s: string): (r: string)
    ensures ' ' !in r
    ensures forall i :: 0 <= i < |r| ==> !IsLower(r[i])
  {
    var u := ToUpper(s);
    assert forall c :: c in u ==> !IsLower(c);
    RemoveSpaces(u)
  }

  predicate NoLower(s: string) {
    forall i :: 0 <= i < |s| ==> !IsLower(s[i])
  }

  lemma {:induction false} ToUpperNoLowerIsIdentity(s: string)
    requires NoLower(s)
    ensures ToUpper(s) == s
  {
    if s != [] {
      assert NoLower(s[1..]) by {
        forall i | 0 <= i < |s[1..]| ensures !IsLower(s[1..][i]) {
          assert s[1..][i] == s[i + 1];
        }
      }
      ToUpperNoLowerIsIdentity(s[1..]);
    }
  }

  lemma {:induction false} RemoveSpacesNoSpaceIsIdentity(s: string)
    requires ' ' !in s
    ensures RemoveSpaces(s) == s
  {
    if s != [] {
      assert s == [s[0]] + s[1..];
      RemoveSpacesNoSpaceIsIdentity(s[1..]);
    }
  }

  /** Upper-casing twice is upper-casing once. */
  lemma ToUpperIdempotent(s: string)
    ensures ToUpper(ToUpper(s)) == ToUpper(s)
  {
    ToUpperNoLowerIsIdentity(ToUpper(s));
  }

  /** A normalised input name is its own normal form. */
  lemma NormaliseInputIdempotent(s: string)
    ensures NormaliseInput(NormaliseInput(s)) == NormaliseInput(s)
  {
    var r := NormaliseInput(s);
    ToUpperNoLowerIsIdentity(r);
    RemoveSpacesNoSpaceIsIdentity(r);
  }

  /** No string that contains a space or a lower-case letter is ever produced by normalisation. */
  lemma NormalisedNeverMatches(raw: string, alias: string)
    requires ' ' in alias || exists i :: 0 <= i < |alias| && IsLower(alias[i])
    ensures NormaliseInput(raw) != alias
  {
  }
}
