/**
 * The avatar shown when a user has no picture: up to two initials on a
 * background colour chosen from the name.
 */
module Avatar {
  import opened Text

  const AnonymousName := "Anonymous"
  const AnonymousColor := "#A0AEC0"
  const Palette: seq<string> := ["#F56565", "#ED8936", "#ECC94B", "#48BB78", "#4299E1", "#667EEA", "#9F7AEA", "#ED64A6"]

  /**
   * `` `${part[0]}` ``: the first character, or the text "undefined" when the
   * part is empty.
   */
  function FirstOrUndefined(part: string): (r: string)
    ensures part != "" ==> r == [part[0]]
    ensures part == "" ==> r == "undefined"
  {
    if part == "" then "undefined" else [part[0]]
  }

  /**
   * `generateInitials` as written: "A" for a missing or anonymous name; the
   * first characters of the first two pieces when the name splits at single
   * spaces into several; otherwise its first two characters.  Upper-cased.
   */
  function InitialsAsWritten(username: string): (r: string)
    ensures username == "" || username == AnonymousName ==> r == "A"
    ensures username != "" && username != AnonymousName && ' ' in username ==>
      var parts := SplitSpace(username);
      |parts| > 1 && r == Upper(FirstOrUndefined(parts[0]) + FirstOrUndefined(parts[1]))
    ensures username != "" && username != AnonymousName && ' ' !in username ==>
      r == Upper(username[..if |username| < 2 then |username| else 2])
  {
    if username == "" || username == AnonymousName then "A"
    else
      var parts := SplitSpace(username);
      if |parts| > 1 then Upper(FirstOrUndefined(parts[0]) + FirstOrUndefined(parts[1]))
      else Upper(username[..if |username| < 2 then |username| else 2])
  }

  /**
   * A double space between two words makes an empty second piece, and the
   * initials then spell out the first letter followed by "UNDEFINED"
   * (so "a  b" gives "AUNDEFINED").
   */
  lemma InitialsDoubleSpace(first: string, second: string)
    requires first != "" && SpaceFree(first) && SpaceFree(second)
    ensures InitialsAsWritten(first + "  " + second) == Upper([first[0]] + "undefined")
    ensures |InitialsAsWritten(first + "  " + second)| > 2
  {
    var s := first + "  " + second;
    SplitDoubleSpace(first, second);
    assert s[|first|] == ' ';
    assert ' ' !in AnonymousName;
  }

  /** Splitting at a double space leaves an empty piece after the first word. */
  lemma SplitDoubleSpace(first: string, second: string)
    requires SpaceFree(first) && SpaceFree(second)
    ensures SplitSpace(first + "  " + second) == [first, ""] + SplitSpace(second)
  {
    SplitAfterWord(first, second);
    SplitLeadingSpace(second);
  }

  lemma SplitAfterWord(first: string, second: string)
    requires SpaceFree(first)
    ensures SplitSpace(first + "  " + second) == [first] + SplitSpace(" " + second)
  {
    var rest := " " + second;
    assert first + "  " + second == first + " " + rest;
    SplitSpaceWord(first, rest);
  }

  /**
   * The evident intent: the first letters of the first two words, words
   * being separated by any run of whitespace; a one-word name gives its first
   * two letters; a name without letters other than whitespace counts as missing.
   */
  function Initials(username: string): (r: string)
    ensures username == "" || username == AnonymousName || AllSpace(username) ==> r == "A"
    ensures username != AnonymousName && |Tokens(username)| == 1 ==>
      var w := Tokens(username)[0];
      r == Upper(w[..if |w| < 2 then |w| else 2])
    ensures username != AnonymousName && |Tokens(username)| >= 2 ==>
      r == Upper([Tokens(username)[0][0], Tokens(username)[1][0]])
    ensures 1 <= |r| <= 2
    ensures forall i :: 0 <= i < |r| ==> !IsSpace(r[i]) && !IsLower(r[i])
  {
    if username == "" || username == AnonymousName then "A"
    else
      var words := Tokens(username);
      if |words| == 0 then "A"
      else if |words| == 1 then Upper(words[0][..if |words[0]| < 2 then |words[0]| else 2])
      else Upper([words[0][0], words[1][0]])
  }

  /** On names whose words are separated by single spaces, the intended initials agree with the written ones. */
  lemma InitialsAgree(first: string, second: string)
    requires IsWord(first) && IsWord(second) && first + " " + second != AnonymousName
    ensures Initials(first + " " + second) == InitialsAsWritten(first + " " + second)
  {
    var s := first + " " + second;
    var ws := [first, second];
    assert JoinSpace(ws) == s by {
      assert JoinSpace(ws[1..]) == second;
    }
    TokensJoin(ws);
    assert AllSpaceFree(ws) by {
      assert forall i :: 0 <= i < |first| ==> first[i] != ' ';
      assert forall i :: 0 <= i < |second| ==> second[i] != ' ';
    }
    SplitJoin(ws);
    assert FirstOrUndefined(first) + FirstOrUndefined(second) == [first[0], second[0]];
  }

  /**
   * The intended initials of two words joined by a double space are the two
   * first letters, where the written version gives "UNDEFINED".
   */
  lemma InitialsDoubleSpaceIntended(first: string, second: string)
    requires IsWord(first) && IsWord(second)
    ensures Initials(first + "  " + second) == Upper([first[0], second[0]])
  {
    var s := first + "  " + second;
    TokensDoubleSpace(first, second);
    assert s[|first|] == ' ';
    assert ' ' !in AnonymousName;
  }

  /** A double space separates two words like a single one. */
  lemma TokensDoubleSpace(first: string, second: string)
    requires IsWord(first) && IsWord(second)
    ensures Tokens(first + "  " + second) == [first, second]
  {
    TokensAfterWord(first, second);
    TokensDropFirst(" " + second);
    assert (" " + second)[1..] == second;
    TokensWord(second);
  }

  lemma TokensAfterWord(first: string, second: string)
    requires IsWord(first)
    ensures Tokens(first + "  " + second) == [first] + Tokens(" " + second)
  {
    assert first + "  " + second == first + " " + (" " + second);
    TokensWordSpace(first, " " + second);
  }

  /** The sum of the character codes of `s`. */
  function CodeSum(s: string): (n: nat)
  {
    if s == [] then 0 else s[0] as nat + CodeSum(s[1..])
  }

  lemma {:induction false} CodeSumConcat(a: string, b: string)
    ensures CodeSum(a + b) == CodeSum(a) + CodeSum(b)
    decreases |a|
  {
    if a != [] {
      assert (a + b)[0] == a[0] && (a + b)[1..] == a[1..] + b;
      CodeSumConcat(a[1..], b);
      assert a + b != [];
      assert CodeSum(a + b) == a[0] as nat + CodeSum(a[1..] + b);
      assert CodeSum(a) == a[0] as nat + CodeSum(a[1..]);
    } else {
      assert a + b == b;
    }
  }

  /** Names with the same letters in any order have the same code sum. */
  lemma {:induction false} CodeSumPermutation(a: string, b: string)
    requires multiset(a) == multiset(b)
    ensures CodeSum(a) == CodeSum(b)
    decreases |a|
  {
    if a == [] {
      assert |b| == |multiset(b)| == 0;
    } else {
      assert a[0] in multiset(b);
      var i :| 0 <= i < |b| && b[i] == a[0];
      var rest := b[..i] + b[i + 1..];
      assert b == b[..i] + [b[i]] + b[i + 1..];
      CodeSumConcat(b[..i] + [b[i]], b[i + 1..]);
      CodeSumConcat(b[..i], [b[i]]);
      CodeSumConcat(b[..i], b[i + 1..]);
      assert a == [a[0]] + a[1..];
      assert multiset(b) == multiset(b[..i]) + multiset([b[i]]) + multiset(b[i + 1..]);
      assert multiset(a) == multiset([a[0]]) + multiset(a[1..]);
      assert multiset(rest) == multiset(b[..i]) + multiset(b[i + 1..]);
      assert multiset(a[1..]) == multiset(a) - multiset{a[0]};
      assert multiset(rest) == multiset(b) - multiset{b[i]};
      assert multiset(a[1..]) == multiset(rest);
      CodeSumPermutation(a[1..], rest);
    }
  }

  /** `generateColor`: grey for the anonymous name, otherwise the palette entry at the code sum modulo 8. */
  function Color(username: string): (c: string)
    ensures username == AnonymousName ==> c == AnonymousColor
    ensures username != AnonymousName ==> c == Palette[CodeSum(username) % |Palette|]
    ensures c in Palette || c == AnonymousColor
  {
    if username == AnonymousName then AnonymousColor
    else Palette[CodeSum(username) % |Palette|]
  }

  /** Named users never get the anonymous grey, and rearranging a name keeps its colour. */
  lemma ColorProperties(a: string, b: string)
    requires a != AnonymousName && b != AnonymousName && multiset(a) == multiset(b)
    ensures Color(a) in Palette && Color(a) != AnonymousColor
    ensures Color(a) == Color(b)
  {
    CodeSumPermutation(a, b);
  }
}
