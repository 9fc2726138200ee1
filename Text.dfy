/**
 * The JavaScript string operations the client logic is built from, stated on
 * `string` (a `seq<char>`): `trim`, the `\s` class, `toLowerCase` and
 * `toUpperCase`, `includes`, `split(/\s+/)` with empty parts dropped,
 * `split(" ")`, `join(" ")`, number-to-string and the `a || b` message fallback.
 */
module Text {

  datatype Option<+T> = None | Some(value: T)

  /** ECMAScript WhiteSpace and LineTerminator code points: what `trim` strips and `\s` matches. */
  predicate IsSpace(c: char)
  {
    var n := c as int;
    n == 0x09 || n == 0x0A || n == 0x0B || n == 0x0C || n == 0x0D || n == 0x20
    || n == 0xA0 || n == 0x1680 || (0x2000 <= n <= 0x200A) || n == 0x2028
    || n == 0x2029 || n == 0x202F || n == 0x205F || n == 0x3000 || n == 0xFEFF
  }

  predicate AllSpace(s: string)
  {
    forall i :: 0 <= i < |s| ==> IsSpace(s[i])
  }

  /** No leading and no trailing whitespace: what `trim` guarantees. */
  predicate NoEdgeSpace(s: string)
  {
    s == [] || (!IsSpace(s[0]) && !IsSpace(s[|s| - 1]))
  }

  /** A whitespace-free, non-empty run of characters. */
  predicate IsWord(w: string)
  {
    w != [] && forall i :: 0 <= i < |w| ==> !IsSpace(w[i])
  }

  predicate SpaceFree(w: string)
  {
    ' ' !in w
  }

  predicate IsUpper(c: char) { 'A' <= c <= 'Z' }

  predicate IsLower(c: char) { 'a' <= c <= 'z' }

  predicate NoUpper(s: string)
  {
    forall i :: 0 <= i < |s| ==> !IsUpper(s[i])
  }

  predicate NoLower(s: string)
  {
    forall i :: 0 <= i < |s| ==> !IsLower(s[i])
  }

  // ---------------------------------------------------------------------
  // Case mapping (ASCII letters)

  function LowerChar(c: char): (d: char)
    ensures !IsUpper(d)
    ensures IsSpace(d) <==> IsSpace(c)
    ensures d == ' ' <==> c == ' '
  {
    if IsUpper(c) then (c as int - 'A' as int + 'a' as int) as char else c
  }

  function UpperChar(c: char): (d: char)
    ensures !IsLower(d)
    ensures IsSpace(d) <==> IsSpace(c)
  {
    if IsLower(c) then (c as int - 'a' as int + 'A' as int) as char else c
  }

  /** `s.toLowerCase()` */
  function Lower(s: string): (r: string)
    ensures |r| == |s| && NoUpper(r)
    ensures forall i :: 0 <= i < |s| ==> r[i] == LowerChar(s[i])
  {
    seq(|s|, i requires 0 <= i < |s| => LowerChar(s[i]))
  }

  /** `s.toUpperCase()` */
  function Upper(s: string): (r: string)
    ensures |r| == |s| && NoLower(r)
    ensures forall i :: 0 <= i < |s| ==> r[i] == UpperChar(s[i])
  {
    seq(|s|, i requires 0 <= i < |s| => UpperChar(s[i]))
  }

  lemma LowerConcat(a: string, b: string)
    ensures Lower(a + b) == Lower(a) + Lower(b)
  {
    assert forall i :: 0 <= i < |a + b| ==> Lower(a + b)[i] == (Lower(a) + Lower(b))[i];
  }

  /** Lowering keeps the position of every space, so a space-free word stays space-free. */
  lemma LowerSpaceFree(w: string)
    ensures SpaceFree(Lower(w)) <==> SpaceFree(w)
  {
    if ' ' in w {
      var i :| 0 <= i < |w| && w[i] == ' ';
      assert Lower(w)[i] == ' ';
    }
    if ' ' in Lower(w) {
      var i :| 0 <= i < |Lower(w)| && Lower(w)[i] == ' ';
      assert w[i] == ' ';
    }
  }

  /** Lowering a string with no capital letter changes nothing. */
  lemma LowerNoUpper(s: string)
    requires NoUpper(s)
    ensures Lower(s) == s
  {
  }

  // ---------------------------------------------------------------------
  // trim

  /** `s.trim()`: `s` with its leading and trailing whitespace removed. */
  function Trim(s: string): (r: string)
    ensures NoEdgeSpace(r)
    ensures |r| <= |s|
    ensures r == [] <==> AllSpace(s)
    ensures SpaceFree(s) ==> SpaceFree(r)
    decreases |s|
  {
    if s == [] then []
    else if IsSpace(s[0]) then
      var t := s[1..];
      assert forall i :: 1 <= i < |s| ==> s[i] == t[i - 1];
      assert ' ' in t ==> ' ' in s;
      Trim(t)
    else if IsSpace(s[|s| - 1]) then
      var t := s[..|s| - 1];
      assert forall i :: 0 <= i < |t| ==> s[i] == t[i];
      assert ' ' in t ==> ' ' in s;
      Trim(t)
    else
      s
  }

  /** A string that already has no edge whitespace is its own trim. */
  lemma TrimNoEdge(s: string)
    requires NoEdgeSpace(s)
    ensures Trim(s) == s
  {
  }

  /** Trimming commutes with lowering: both keep whitespace where it is. */
  lemma {:induction false} TrimLower(s: string)
    ensures Trim(Lower(s)) == Lower(Trim(s))
    decreases |s|
  {
    var l := Lower(s);
    if s != [] {
      if IsSpace(s[0]) {
        TrimDropFirst(s);
        TrimDropFirst(l);
        LowerDrop(s, 1);
        TrimLower(s[1..]);
      } else if IsSpace(s[|s| - 1]) {
        TrimDropLast(s);
        TrimDropLast(l);
        LowerTake(s, |s| - 1);
        TrimLower(s[..|s| - 1]);
      } else {
        TrimNoEdge(s);
        TrimNoEdge(l);
      }
    }
  }

  lemma TrimDropFirst(s: string)
    requires s != [] && IsSpace(s[0])
    ensures Trim(s) == Trim(s[1..])
  { }

  lemma TrimDropLast(s: string)
    requires s != [] && !IsSpace(s[0]) && IsSpace(s[|s| - 1])
    ensures Trim(s) == Trim(s[..|s| - 1])
  { }

  lemma LowerDrop(s: string, n: nat)
    requires n <= |s|
    ensures Lower(s)[n..] == Lower(s[n..])
  {
  }

  lemma LowerTake(s: string, n: nat)
    requires n <= |s|
    ensures Lower(s)[..n] == Lower(s[..n])
  {
  }

  // ---------------------------------------------------------------------
  // includes

  function StartsWith(s: string, p: string): (b: bool)
    ensures b <==> p <= s
  {
    |p| <= |s| && s[..|p|] == p
  }

  /** `s.includes(sub)` */
  function Contains(s: string, sub: string): (b: bool)
    ensures b <==> exists i :: 0 <= i <= |s| && StartsWith(s[i..], sub)
    decreases |s|
  {
    assert s[0..] == s;
    if StartsWith(s, sub) then true
    else if s == [] then false
    else
      var b := Contains(s[1..], sub);
      assert forall i :: 1 <= i <= |s| ==> s[1..][i - 1..] == s[i..];
      b
  }

  // ---------------------------------------------------------------------
  // split(/\s+/) with empty parts dropped

  /** The longest whitespace-free prefix of `s`. */
  function LeadingWord(s: string): (w: string)
    ensures |w| <= |s| && w == s[..|w|]
    ensures forall i :: 0 <= i < |w| ==> !IsSpace(w[i])
    ensures |w| < |s| ==> IsSpace(s[|w|])
    decreases |s|
  {
    if s == [] || IsSpace(s[0]) then [] else [s[0]] + LeadingWord(s[1..])
  }

  /** `s.split(/\s+/).filter(Boolean)`: the maximal whitespace-free runs of `s`, in order. */
  function Tokens(s: string): (ts: seq<string>)
    ensures forall k :: 0 <= k < |ts| ==> IsWord(ts[k])
    ensures NoUpper(s) ==> forall k :: 0 <= k < |ts| ==> NoUpper(ts[k])
    ensures ts == [] <==> AllSpace(s)
    decreases |s|
  {
    if s == [] then []
    else if IsSpace(s[0]) then
      var ts := Tokens(s[1..]);
      assert AllSpace(s[1..]) ==> AllSpace(s);
      ts
    else
      var w := LeadingWord(s);
      [w] + Tokens(s[|w|..])
  }

  lemma {:induction false} LeadingWordLower(s: string)
    ensures LeadingWord(Lower(s)) == Lower(LeadingWord(s))
    decreases |s|
  {
    if s != [] && !IsSpace(s[0]) {
      assert Lower(s)[1..] == Lower(s[1..]);
      LeadingWordLower(s[1..]);
      LowerConcat([s[0]], LeadingWord(s[1..]));
    }
  }

  lemma LowerAllCons(w: string, ts: seq<string>)
    ensures LowerAll([w] + ts) == [Lower(w)] + LowerAll(ts)
  {
  }

  /** The words of a lowered string are the lowered words of the string. */
  lemma {:induction false} TokensLower(s: string)
    ensures Tokens(Lower(s)) == LowerAll(Tokens(s))
    decreases |s|
  {
    if s != [] {
      var ls := Lower(s);
      if IsSpace(s[0]) {
        LowerDrop(s, 1);
        assert Tokens(ls) == Tokens(Lower(s[1..]));
        TokensLower(s[1..]);
      } else {
        var w := LeadingWord(s);
        LeadingWordLower(s);
        LowerDrop(s, |w|);
        assert Tokens(ls) == [Lower(w)] + Tokens(Lower(s[|w|..]));
        TokensLower(s[|w|..]);
        LowerAllCons(w, Tokens(s[|w|..]));
      }
    }
  }

  lemma {:induction false} LeadingWordAppendSpace(p: string, q: string)
    requires AllSpace(q)
    ensures LeadingWord(p + q) == LeadingWord(p)
    decreases |p|
  {
    if p == [] {
      assert p + q == q;
    } else if !IsSpace(p[0]) {
      assert (p + q)[1..] == p[1..] + q;
      LeadingWordAppendSpace(p[1..], q);
    }
  }

  /** Trailing whitespace adds no word. */
  lemma {:induction false} TokensAppendSpace(p: string, q: string)
    requires AllSpace(q)
    ensures Tokens(p + q) == Tokens(p)
    decreases |p|
  {
    if p == [] {
      assert p + q == q;
    } else if IsSpace(p[0]) {
      assert (p + q)[1..] == p[1..] + q;
      TokensAppendSpace(p[1..], q);
    } else {
      var w := LeadingWord(p);
      LeadingWordAppendSpace(p, q);
      assert (p + q)[|w|..] == p[|w|..] + q;
      TokensAppendSpace(p[|w|..], q);
    }
  }

  /** Trimming a text keeps its words. */
  lemma {:induction false} TokensTrim(s: string)
    ensures Tokens(Trim(s)) == Tokens(s)
    decreases |s|
  {
    if s != [] {
      if IsSpace(s[0]) {
        TrimDropFirst(s);
        TokensDropFirst(s);
        TokensTrim(s[1..]);
      } else if IsSpace(s[|s| - 1]) {
        TrimDropLast(s);
        TokensDropLast(s);
        TokensTrim(s[..|s| - 1]);
      } else {
        TrimNoEdge(s);
      }
    }
  }

  lemma TokensDropFirst(s: string)
    requires s != [] && IsSpace(s[0])
    ensures Tokens(s) == Tokens(s[1..])
  { }

  lemma TokensDropLast(s: string)
    requires s != [] && IsSpace(s[|s| - 1])
    ensures Tokens(s) == Tokens(s[..|s| - 1])
  {
    var p := s[..|s| - 1];
    assert s == p + [s[|s| - 1]];
    TokensAppendSpace(p, [s[|s| - 1]]);
  }

  lemma {:induction false} LeadingWordJoin(w: string, rest: string)
    requires IsWord(w)
    ensures LeadingWord(w + " " + rest) == w
    decreases |w|
  {
    if |w| > 1 {
      assert (w + " " + rest)[1..] == w[1..] + " " + rest;
      LeadingWordJoin(w[1..], rest);
    } else {
      assert (w + " " + rest)[1..] == " " + rest;
    }
  }

  /** A word on its own is its only word. */
  lemma TokensWord(w: string)
    requires IsWord(w)
    ensures Tokens(w) == [w]
  {
    var lw := LeadingWord(w);
    assert |lw| == |w|;
    assert lw == w;
    assert w[|lw|..] == [];
  }

  /** A word followed by a space contributes that word and nothing else. */
  lemma TokensWordSpace(w: string, rest: string)
    requires IsWord(w)
    ensures Tokens(w + " " + rest) == [w] + Tokens(rest)
  {
    var s := w + " " + rest;
    assert s[0] == w[0];
    LeadingWordJoin(w, rest);
    assert s[|w|..] == " " + rest;
    assert IsSpace((" " + rest)[0]);
    assert (" " + rest)[1..] == rest;
  }

  /** The words of a single-space join of words are those words. */
  lemma {:induction false} TokensJoin(ws: seq<string>)
    requires forall k :: 0 <= k < |ws| ==> IsWord(ws[k])
    ensures Tokens(JoinSpace(ws)) == ws
  {
    if |ws| == 1 {
      TokensWord(ws[0]);
    } else if |ws| > 1 {
      TokensWordSpace(ws[0], JoinSpace(ws[1..]));
      TokensJoin(ws[1..]);
      assert [ws[0]] + ws[1..] == ws;
    }
  }

  // ---------------------------------------------------------------------
  // split(" ") and join(" ")

  function FirstIndexOf(s: string, c: char): (i: nat)
    requires c in s
    ensures i < |s| && s[i] == c && c !in s[..i]
  {
    if s[0] == c then 0 else 1 + FirstIndexOf(s[1..], c)
  }

  /** `s.split(" ")`: the pieces between single spaces, empty pieces kept. */
  function SplitSpace(s: string): (parts: seq<string>)
    ensures |parts| >= 1
    ensures forall k :: 0 <= k < |parts| ==> SpaceFree(parts[k])
    decreases |s|
  {
    if ' ' !in s then [s]
    else
      var i := FirstIndexOf(s, ' ');
      [s[..i]] + SplitSpace(s[i + 1..])
  }

  /** `ws.join(" ")` */
  function JoinSpace(ws: seq<string>): (r: string)
    ensures |ws| == 0 ==> r == ""
    ensures |ws| == 1 ==> r == ws[0]
    ensures |ws| >= 1 ==> ws[0] <= r
    ensures |ws| >= 2 ==> |r| > |ws[0]| && r[|ws[0]|] == ' '
  {
    if |ws| == 0 then ""
    else if |ws| == 1 then ws[0]
    else ws[0] + " " + JoinSpace(ws[1..])
  }

  predicate AllSpaceFree(ws: seq<string>)
  {
    forall k :: 0 <= k < |ws| ==> SpaceFree(ws[k])
  }

  lemma {:induction false} JoinSnoc(ws: seq<string>, w: string)
    requires |ws| >= 1
    ensures JoinSpace(ws + [w]) == JoinSpace(ws) + " " + w
    decreases |ws|
  {
    var t := ws + [w];
    assert t[0] == ws[0];
    if |ws| == 1 {
      assert t[1..] == [w];
    } else {
      assert t[1..] == ws[1..] + [w];
      JoinSnoc(ws[1..], w);
      var rest := JoinSpace(ws[1..]);
      assert JoinSpace(t) == ws[0] + " " + (rest + " " + w);
      assert ws[0] + " " + (rest + " " + w) == (ws[0] + " " + rest) + " " + w;
    }
  }

  /** A join of n words has at least n - 1 characters, the separating spaces. */
  lemma {:induction false} JoinLength(ws: seq<string>)
    ensures |JoinSpace(ws)| + 1 >= |ws|
  {
    if |ws| > 1 {
      JoinLength(ws[1..]);
    }
  }

  /** Joining the pieces of a split gives back the string. */
  lemma {:induction false} JoinSplit(s: string)
    ensures JoinSpace(SplitSpace(s)) == s
    decreases |s|
  {
    if ' ' in s {
      var i := FirstIndexOf(s, ' ');
      var rest := s[i + 1..];
      var parts := SplitSpace(rest);
      assert SplitSpace(s) == [s[..i]] + parts;
      assert ([s[..i]] + parts)[1..] == parts;
      JoinSplit(rest);
      assert JoinSpace(SplitSpace(s)) == s[..i] + " " + JoinSpace(parts);
      assert s == s[..i] + " " + rest;
    }
  }

  /** The first space after a space-free word is the one that follows it. */
  lemma {:induction false} FirstSpaceAfterWord(w: string, rest: string)
    requires SpaceFree(w)
    ensures ' ' in w + " " + rest
    ensures FirstIndexOf(w + " " + rest, ' ') == |w|
    decreases |w|
  {
    var s := w + " " + rest;
    if w == [] {
      assert s[0] == ' ';
    } else {
      assert s[0] == w[0] && w[0] in w;
      assert s[1..] == w[1..] + " " + rest;
      assert forall c :: c in w[1..] ==> c in w;
      FirstSpaceAfterWord(w[1..], rest);
    }
  }

  /** A space-free word followed by a space splits off as the first piece. */
  lemma SplitSpaceWord(w: string, rest: string)
    requires SpaceFree(w)
    ensures SplitSpace(w + " " + rest) == [w] + SplitSpace(rest)
  {
    var s := w + " " + rest;
    FirstSpaceAfterWord(w, rest);
    assert s[..|w|] == w;
    assert s[|w| + 1..] == rest;
  }

  /** A leading space splits off an empty piece. */
  lemma SplitLeadingSpace(rest: string)
    ensures SplitSpace(" " + rest) == [""] + SplitSpace(rest)
  {
    assert " " + rest == "" + " " + rest;
    SplitSpaceWord("", rest);
  }

  /** Splitting a join of space-free words gives back the words. */
  lemma {:induction false} SplitJoin(ws: seq<string>)
    requires |ws| >= 1 && AllSpaceFree(ws)
    ensures SplitSpace(JoinSpace(ws)) == ws
  {
    if |ws| > 1 {
      SplitSpaceWord(ws[0], JoinSpace(ws[1..]));
      SplitJoin(ws[1..]);
      assert [ws[0]] + ws[1..] == ws;
    }
  }

  /** `join(" ")` is one-to-one on non-empty lists of space-free words. */
  lemma JoinInjective(a: seq<string>, b: seq<string>)
    requires |a| >= 1 && AllSpaceFree(a)
    requires |b| >= 1 && AllSpaceFree(b)
    ensures JoinSpace(a) == JoinSpace(b) <==> a == b
  {
    if JoinSpace(a) == JoinSpace(b) {
      SplitJoin(a);
      SplitJoin(b);
    }
  }

  function LowerAll(ws: seq<string>): (r: seq<string>)
    ensures |r| == |ws| && forall k :: 0 <= k < |ws| ==> r[k] == Lower(ws[k])
  {
    seq(|ws|, k requires 0 <= k < |ws| => Lower(ws[k]))
  }

  /** Lowering a joined list is joining the lowered words. */
  lemma {:induction false} LowerJoin(ws: seq<string>)
    ensures Lower(JoinSpace(ws)) == JoinSpace(LowerAll(ws))
  {
    if |ws| > 1 {
      LowerJoin(ws[1..]);
      LowerConcat(ws[0] + " ", JoinSpace(ws[1..]));
      LowerConcat(ws[0], " ");
      assert LowerAll(ws)[1..] == LowerAll(ws[1..]);
    }
  }

  /**
   * Comparing lowered joins of two lists of space-free words is comparing the
   * lists word by word, ignoring case.
   */
  lemma LowerJoinEqual(a: seq<string>, b: seq<string>)
    requires |a| >= 1 && AllSpaceFree(a)
    requires |b| >= 1 && AllSpaceFree(b)
    ensures Lower(JoinSpace(a)) == Lower(JoinSpace(b)) <==> LowerAll(a) == LowerAll(b)
  {
    LowerJoin(a);
    LowerJoin(b);
    forall k | 0 <= k < |a| ensures SpaceFree(LowerAll(a)[k]) { LowerSpaceFree(a[k]); }
    forall k | 0 <= k < |b| ensures SpaceFree(LowerAll(b)[k]) { LowerSpaceFree(b[k]); }
    JoinInjective(LowerAll(a), LowerAll(b));
  }

  // ---------------------------------------------------------------------
  // Numbers and message fallbacks

  function DigitChar(d: nat): (c: char)
    requires d < 10
    ensures '0' <= c <= '9'
  {
    ('0' as int + d) as char
  }

  /** Decimal rendering of a natural number, as a template literal prints it. */
  function NatToString(n: nat): (s: string)
    ensures |s| >= 1
    ensures forall i :: 0 <= i < |s| ==> '0' <= s[i] <= '9'
    ensures n < 10 <==> |s| == 1
  {
    if n < 10 then [DigitChar(n)] else NatToString(n / 10) + [DigitChar(n % 10)]
  }

  /** Different numbers print differently. */
  lemma {:induction false} NatToStringInjective(a: nat, b: nat)
    ensures NatToString(a) == NatToString(b) ==> a == b
  {
    if NatToString(a) == NatToString(b) && a >= 10 && b >= 10 {
      var sa := NatToString(a);
      assert sa[|sa| - 1] == DigitChar(a % 10);
      assert sa[..|sa| - 1] == NatToString(a / 10);
      var sb := NatToString(b);
      assert sb[|sb| - 1] == DigitChar(b % 10);
      assert sb[..|sb| - 1] == NatToString(b / 10);
      NatToStringInjective(a / 10, b / 10);
    }
  }

  /** `message || fallback`: a missing or empty server message gives way to the fallback. */
  function MessageOr(message: Option<string>, fallback: string): (r: string)
    ensures message.Some? && message.value != "" ==> r == message.value
    ensures (message.None? || message.value == "") ==> r == fallback
  {
    if message.Some? && message.value != "" then message.value else fallback
  }
}
