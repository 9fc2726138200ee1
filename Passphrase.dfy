/**
 * The twelve-box passphrase entry used by the registration check step and by
 * the passphrase login form: a word typed with a space spills its second word
 * into the next box, keys move the focus between boxes, and a pasted text is
 * spread over the boxes from the first one.  Focus is the index of the box that
 * holds the keyboard focus; a deferred focus change happens at once.
 */
module Passphrase {
  import opened Text
  import opened Sequences

  const CellCount: nat := 12

  /** The keys the boxes react to; every other key is `OtherKey`. */
  datatype Key = Backspace | ArrowLeft | ArrowRight | OtherKey

  /** `Array(12).fill("")` */
  function Blank(): (words: seq<string>)
    ensures |words| == CellCount && forall i :: 0 <= i < CellCount ==> words[i] == ""
  {
    seq(CellCount, _ => "")
  }

  /** What the box handler stores for a word: trimmed, lower case and without a space. */
  predicate Normal(w: string)
  {
    SpaceFree(w) && NoEdgeSpace(w) && NoUpper(w)
  }

  predicate AllNormal(ws: seq<string>)
  {
    forall k :: 0 <= k < |ws| ==> Normal(ws[k])
  }

  /** Normal words are space-free, so a grid of them joins and splits back unchanged. */
  lemma NormalSpaceFree(ws: seq<string>)
    requires AllNormal(ws)
    ensures AllSpaceFree(ws)
  {
  }

  /** Whether typing `value` into box `index` fills the next box as well. */
  function Spills(index: nat, value: string): (b: bool)
    ensures b ==> index + 1 < CellCount && !SpaceFree(value) && !AllSpace(value)
  {
    ' ' in value && |Tokens(value)| > 1 && index < CellCount - 1
  }

  /** `s.trim().toLowerCase()`, what a box stores for a word. */
  function Clean(s: string): (c: string)
    ensures SpaceFree(s) ==> Normal(c)
    ensures IsWord(s) ==> c == Lower(s) && Normal(c)
    ensures c == "" <==> AllSpace(s)
  {
    CleanFacts(s);
    Lower(Trim(s))
  }

  lemma CleanFacts(s: string)
    ensures SpaceFree(s) ==> Normal(Lower(Trim(s)))
    ensures IsWord(s) ==> Lower(Trim(s)) == Lower(s)
  {
    if IsWord(s) {
      WordIsOwnTrim(s);
    }
    if SpaceFree(s) {
      LowerTrimNormal(s);
    }
  }

  /** `handleWordChange(index, value)`: the boxes after the change. */
  function WordChange(words: seq<string>, index: nat, value: string): (r: seq<string>)
    requires |words| == CellCount && index < CellCount
    ensures |r| == CellCount
    ensures forall k :: 0 <= k < CellCount && k != index && k != index + 1 ==> r[k] == words[k]
  {
    if ' ' in value then
      var parts := Tokens(value);
      if |parts| == 0 then words
      else if |parts| > 1 && index < CellCount - 1 then
        words[index := Clean(parts[0])][index + 1 := Clean(parts[1])]
      else
        words[index := Clean(parts[0])]
    else
      words[index := Clean(value)]
  }

  lemma LowerTrimNormal(s: string)
    requires SpaceFree(s)
    ensures Normal(Lower(Trim(s)))
  {
    var t := Trim(s);
    LowerSpaceFree(t);
  }

  lemma WordIsOwnTrim(w: string)
    requires IsWord(w)
    ensures Trim(w) == w && SpaceFree(w)
  {
    assert forall i :: 0 <= i < |w| ==> w[i] != ' ' by {
      forall i | 0 <= i < |w| ensures w[i] != ' ' { assert !IsSpace(w[i]); }
    }
    TrimNoEdge(w);
  }

  /** A change touches the box typed into and, on a spill, the next one; nothing else. */
  lemma WordChangeFrame(words: seq<string>, index: nat, value: string)
    requires |words| == CellCount && index < CellCount
    ensures var r := WordChange(words, index, value);
      |r| == CellCount &&
      forall j :: 0 <= j < CellCount && j != index && !(Spills(index, value) && j == index + 1) ==>
        r[j] == words[j]
  {
    var r := WordChange(words, index, value);
    if ' ' in value {
      var parts := Tokens(value);
      if |parts| == 0 {
      } else if |parts| > 1 && index < CellCount - 1 {
        assert r == words[index := Clean(parts[0])][index + 1 := Clean(parts[1])];
      } else {
        assert !Spills(index, value);
        assert r == words[index := Clean(parts[0])];
      }
    } else {
      assert !Spills(index, value);
      assert r == words[index := Clean(value)];
    }
  }

  /**
   * Every box a change writes holds a normal word, so a grid of normal words
   * stays normal; a value containing a space and otherwise only whitespace
   * writes nothing.
   */
  lemma WordChangeNormal(words: seq<string>, index: nat, value: string)
    requires |words| == CellCount && index < CellCount
    ensures var r := WordChange(words, index, value);
      (AllNormal(words) ==> AllNormal(r)) &&
      (!(' ' in value && AllSpace(value)) ==> Normal(r[index])) &&
      (Spills(index, value) ==> Normal(r[index + 1])) &&
      (' ' in value && AllSpace(value) ==> r == words)
  {
    var r := WordChange(words, index, value);
    if ' ' in value {
      var parts := Tokens(value);
      if |parts| == 0 {
      } else if |parts| > 1 && index < CellCount - 1 {
        assert r == words[index := Clean(parts[0])][index + 1 := Clean(parts[1])];
        assert Normal(r[index]) && Normal(r[index + 1]);
      } else {
        assert r == words[index := Clean(parts[0])];
        assert Normal(r[index]);
      }
    } else {
      assert r == words[index := Clean(value)];
      assert Normal(r[index]);
    }
  }

  /**
   * A value with a space puts its first word, lowered, in the box, and on a
   * spill its second word in the next box; later words are dropped.
   */
  lemma WordChangeWords(words: seq<string>, index: nat, value: string)
    requires |words| == CellCount && index < CellCount
    requires ' ' in value && !AllSpace(value)
    ensures var r := WordChange(words, index, value);
      r[index] == Lower(Tokens(value)[0]) &&
      (Spills(index, value) ==> r[index + 1] == Lower(Tokens(value)[1]))
  {
    var parts := Tokens(value);
    assert Clean(parts[0]) == Lower(parts[0]);
    if |parts| > 1 && index < CellCount - 1 {
      assert Clean(parts[1]) == Lower(parts[1]);
      assert WordChange(words, index, value) == words[index := Clean(parts[0])][index + 1 := Clean(parts[1])];
    } else {
      assert WordChange(words, index, value) == words[index := Clean(parts[0])];
    }
  }

  /** A value without a space made only of whitespace (or empty) clears the box. */
  lemma WordChangeClears(words: seq<string>, index: nat, value: string)
    requires |words| == CellCount && index < CellCount
    requires ' ' !in value && AllSpace(value)
    ensures WordChange(words, index, value) == words[index := ""]
  {
  }

  /** Typing back the normal word a box already holds changes nothing. */
  lemma WordChangeFixpoint(words: seq<string>, index: nat)
    requires |words| == CellCount && index < CellCount && Normal(words[index])
    ensures WordChange(words, index, words[index]) == words
  {
    var w := words[index];
    TrimNoEdge(w);
    LowerNoUpper(w);
    WordChangeNoSpace(words, index, w);
    SameUpdate(words, index);
  }

  lemma WordChangeNoSpace(words: seq<string>, index: nat, value: string)
    requires |words| == CellCount && index < CellCount && ' ' !in value
    ensures WordChange(words, index, value) == words[index := Clean(value)]
  {
  }

  lemma SameUpdate(words: seq<string>, index: nat)
    requires index < |words|
    ensures words[index := words[index]] == words
  {
  }

  /** `pastedText.trim().toLowerCase().split(/\s+/)`: a blank text gives one empty word. */
  function PasteTokens(text: string): (ts: seq<string>)
    ensures |ts| >= 1 && AllNormal(ts)
    ensures AllSpace(text) ==> ts == [""]
    ensures !AllSpace(text) ==> ts == LowerAll(Tokens(text))
  {
    var t := Clean(text);
    if t == "" then [""]
    else
      PasteTokensWords(text);
      Tokens(t)
  }

  lemma PasteTokensWords(text: string)
    requires !AllSpace(text)
    ensures Tokens(Clean(text)) == LowerAll(Tokens(text))
    ensures |Tokens(Clean(text))| >= 1 && AllNormal(Tokens(Clean(text)))
  {
    TokensLower(Trim(text));
    TokensTrim(text);
    LowerWordsNormal(Tokens(text));
  }

  lemma LowerWordsNormal(ws: seq<string>)
    requires forall k :: 0 <= k < |ws| ==> IsWord(ws[k])
    ensures AllNormal(LowerAll(ws))
  {
    forall k | 0 <= k < |ws|
      ensures Normal(LowerAll(ws)[k])
    {
      assert Clean(ws[k]) == Lower(ws[k]);
    }
  }

  /** `handlePaste`: the first pasted words overwrite the first boxes, at most twelve. */
  function PasteWords(words: seq<string>, text: string): (r: seq<string>)
    requires |words| == CellCount
    ensures |r| == CellCount
  {
    Overlay(words, Take(PasteTokens(text), CellCount))
  }

  /** `words` with its first `|ws|` entries replaced by `ws`. */
  function Overlay(words: seq<string>, ws: seq<string>): (r: seq<string>)
    requires |ws| <= |words|
    ensures |r| == |words|
    ensures forall j :: 0 <= j < |ws| ==> r[j] == ws[j]
    ensures forall j :: |ws| <= j < |words| ==> r[j] == words[j]
  {
    ws + words[|ws|..]
  }

  function Min(a: nat, b: nat): nat
  {
    if a <= b then a else b
  }

  /**
   * Pasting a text with n words puts them, lowered, into the first min(n, 12)
   * boxes and keeps the rest.
   */
  lemma PasteFill(words: seq<string>, text: string)
    requires |words| == CellCount && !AllSpace(text)
    ensures var r := PasteWords(words, text);
      var n := Min(|Tokens(text)|, CellCount);
      (forall i :: 0 <= i < n ==> r[i] == Lower(Tokens(text)[i]) && r[i] != "") &&
      (forall i :: n <= i < CellCount ==> r[i] == words[i])
  {
    var tokens := Tokens(text);
    var n := Min(|tokens|, CellCount);
    forall i | 0 <= i < n
      ensures PasteWords(words, text)[i] == Lower(tokens[i]) && PasteWords(words, text)[i] != ""
    {
      PasteAt(words, text, i);
      assert IsWord(tokens[i]);
    }
    forall i | n <= i < CellCount
      ensures PasteWords(words, text)[i] == words[i]
    {
      PasteAt(words, text, i);
    }
  }

  /** Pasting twelve or more words fills every box. */
  lemma PasteTwelve(words: seq<string>, text: string)
    requires |words| == CellCount && |Tokens(text)| >= CellCount
    ensures FirstEmpty(PasteWords(words, text)) == None
  {
    PasteFill(words, text);
  }

  /** Pasting keeps every box normal. */
  lemma PasteNormal(words: seq<string>, text: string)
    requires |words| == CellCount && AllNormal(words)
    ensures AllNormal(PasteWords(words, text))
  {
    var ts := PasteTokens(text);
    forall j | 0 <= j < CellCount
      ensures Normal(PasteWords(words, text)[j])
    {
      PasteAt(words, text, j);
    }
  }

  lemma PasteAt(words: seq<string>, text: string, i: nat)
    requires |words| == CellCount && i < CellCount
    ensures var ts := PasteTokens(text);
      PasteWords(words, text)[i] == if i < |ts| then ts[i] else words[i]
  {
    var ts := PasteTokens(text);
    var t := Take(ts, CellCount);
    if i < |ts| {
      assert i < |t|;
    }
  }

  /** Pasting a blank text empties the first box only. */
  lemma PasteBlank(words: seq<string>, text: string)
    requires |words| == CellCount && AllSpace(text)
    ensures PasteWords(words, text) == words[0 := ""]
  {
  }

  /** `words.findIndex(word => !word)`, `None` for -1. */
  function FirstEmpty(words: seq<string>): (r: Option<nat>)
    ensures r.None? <==> forall i :: 0 <= i < |words| ==> words[i] != ""
    ensures r.Some? ==>
      r.value < |words| && words[r.value] == "" &&
      forall i :: 0 <= i < r.value ==> words[i] != ""
  {
    if words == [] then None
    else if words[0] == "" then Some(0)
    else match FirstEmpty(words[1..])
      case None => None
      case Some(k) => Some(k + 1)
  }

  /** The box focused after a paste: the first empty one, else the last one. */
  function PasteFocus(words: seq<string>): (f: nat)
    requires |words| == CellCount
    ensures f < CellCount
    ensures f < CellCount - 1 ==> words[f] == ""
    ensures forall i :: 0 <= i < f ==> words[i] != ""
  {
    match FirstEmpty(words)
    case Some(k) => k
    case None => CellCount - 1
  }

  /** `handleKeyDown` on box `index`: the box focused afterwards. */
  function KeyFocus(words: seq<string>, index: nat, key: Key): (f: nat)
    requires |words| == CellCount && index < CellCount
    ensures f < CellCount
  {
    match key
    case Backspace => if words[index] == "" && index > 0 then index - 1 else index
    case ArrowRight => if index < CellCount - 1 then index + 1 else index
    case ArrowLeft => if index > 0 then index - 1 else index
    case OtherKey => index
  }

  /** The arrows undo each other away from the edges. */
  lemma ArrowsInverse(words: seq<string>, index: nat)
    requires |words| == CellCount && index < CellCount
    ensures index < CellCount - 1 ==> KeyFocus(words, KeyFocus(words, index, ArrowRight), ArrowLeft) == index
    ensures index > 0 ==> KeyFocus(words, KeyFocus(words, index, ArrowLeft), ArrowRight) == index
  {
  }

  /** Backspace moves back exactly when the box is empty and not the first. */
  lemma BackspaceMoves(words: seq<string>, index: nat)
    requires |words| == CellCount && index < CellCount
    ensures KeyFocus(words, index, Backspace) != index <==> words[index] == "" && index > 0
  {
  }

  /** The twelve boxes and the focused one. */
  class WordGrid {
    var cells: array<string>
    var focus: nat

    ghost predicate Valid()
      reads this, cells
    {
      cells.Length == CellCount && focus < CellCount && AllNormal(cells[..])
    }

    constructor ()
      ensures Valid() && fresh(cells)
      ensures cells[..] == Blank() && focus == 0
    {
      cells := new string[CellCount](_ => "");
      focus := 0;
    }

    /** Returns whether the change spilled into the next box. */
    method ChangeWord(index: nat, value: string) returns (spilled: bool)
      requires Valid() && index < CellCount
      modifies cells, this`focus
      ensures Valid()
      ensures cells[..] == WordChange(old(cells[..]), index, value)
      ensures spilled == Spills(index, value)
      ensures focus == if spilled then index + 1 else old(focus)
    {
      WordChangeNormal(cells[..], index, value);
      spilled := false;
      if ' ' in value {
        var parts := Tokens(value);
        if |parts| > 0 {
          cells[index] := Clean(parts[0]);
          if |parts| > 1 && index < CellCount - 1 {
            cells[index + 1] := Clean(parts[1]);
            focus := index + 1;
            spilled := true;
            return;
          }
        }
      } else {
        cells[index] := Clean(value);
      }
    }

    /** A key pressed in the focused box. */
    method KeyDown(key: Key)
      requires Valid()
      modifies this`focus
      ensures Valid()
      ensures focus == KeyFocus(cells[..], old(focus), key)
    {
      var index := focus;
      if key == Backspace && cells[index] == "" && index > 0 {
        focus := index - 1;
      }
      if key == ArrowRight && index < CellCount - 1 {
        focus := index + 1;
      }
      if key == ArrowLeft && index > 0 {
        focus := index - 1;
      }
    }

    method Paste(text: string)
      requires Valid()
      modifies cells, this`focus
      ensures Valid()
      ensures cells[..] == PasteWords(old(cells[..]), text)
      ensures focus == PasteFocus(cells[..])
    {
      PasteNormal(cells[..], text);
      var words := PasteTokens(text);
      var validWords := Take(words, CellCount);
      Overwrite(validWords);
      var next := FirstEmptyIndex();
      focus := match next case Some(k) => k case None => CellCount - 1;
    }

    /** `validWords.forEach((word, index) => newWords[index] = word)` */
    method Overwrite(ws: seq<string>)
      requires cells.Length == CellCount && |ws| <= CellCount
      modifies cells
      ensures cells[..] == Overlay(old(cells[..]), ws)
    {
      var i := 0;
      while i < |ws|
        invariant 0 <= i <= |ws|
        invariant forall j :: 0 <= j < CellCount ==>
          cells[j] == if j < i then ws[j] else old(cells[j])
      {
        cells[i] := ws[i];
        i := i + 1;
      }
      assert cells[..] == Overlay(old(cells[..]), ws);
    }

    /** The first empty box, if any. */
    method FirstEmptyIndex() returns (r: Option<nat>)
      requires Valid()
      ensures r == FirstEmpty(cells[..])
    {
      var i := 0;
      while i < CellCount
        invariant 0 <= i <= CellCount
        invariant forall j :: 0 <= j < i ==> cells[j] != ""
      {
        if cells[i] == "" {
          return Some(i);
        }
        i := i + 1;
      }
      return None;
    }

    /** `words.join(" ")` */
    method Joined() returns (s: string)
      requires Valid()
      ensures s == JoinSpace(cells[..])
    {
      s := cells[0];
      var i := 1;
      while i < CellCount
        invariant 1 <= i <= CellCount
        invariant s == JoinSpace(cells[..i])
      {
        JoinSnoc(cells[..i], cells[i]);
        assert cells[..i + 1] == cells[..i] + [cells[i]];
        s := s + " " + cells[i];
        i := i + 1;
      }
      assert cells[..CellCount] == cells[..];
    }
  }
}
