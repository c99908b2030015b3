/** GPT-2 pretokenisation: cutting a text into contractions, runs of one class, and whitespace. */
module Pretokenizer {
  import opened Bpe

  /** The Unicode classes of a character; the tables themselves are the runtime library's. */
  datatype Classes = Classes(letter: char -> bool, number: char -> bool, space: char -> bool) {

    /** A blank is whitespace. */
    predicate Ok() { space(' ') }

    function Other(): char -> bool { c => !space(c) && !letter(c) && !number(c) }
  }

  /** Length of a contraction at the start of s, or 0. */
  function Contraction(s: string): (n: nat)
    ensures n <= |s| && n <= 3
  {
    if "'s" <= s || "'t" <= s then 2
    else if "'re" <= s || "'ve" <= s then 3
    else if "'m" <= s then 2
    else if "'ll" <= s then 3
    else if "'d" <= s then 2
    else 0
  }

  const CONTRACTIONS: seq<string> := ["'s", "'t", "'re", "'ve", "'m", "'ll", "'d"]

  /** It is one of the seven, and none of them is missed. */
  lemma ContractionListed(s: string)
    ensures Contraction(s) > 0 ==> s[..Contraction(s)] in CONTRACTIONS
    ensures Contraction(s) == 0 ==> forall c :: c in CONTRACTIONS ==> !(c <= s)
  {
    var n := Contraction(s);
    if n > 0 {
      assert s[..n] == [s[0], s[1]] || s[..n] == [s[0], s[1], s[2]];
      Listing();
    }
  }

  /** Where the run of p that starts at j ends. */
  function RunEnd(text: string, j: nat, p: char -> bool): (e: nat)
    requires j <= |text|
    ensures j <= e <= |text| && (e < |text| ==> !p(text[e]))
    ensures forall k :: j <= k < e ==> p(text[k])
    decreases |text| - j
  {
    if j < |text| && p(text[j]) then RunEnd(text, j + 1, p) else j
  }

  /** Where the word that starts at i ends. */
  function WordEnd(cls: Classes, text: string, i: nat): (e: nat)
    requires cls.Ok() && i < |text|
    ensures i < e <= |text|
  {
    var len := if text[i] == '\'' && i + 1 < |text| then Contraction(text[i..]) else 0;
    var start := if text[i] == ' ' then i + 1 else i;
    if len > 0 then i + len
    else if start < |text| && cls.letter(text[start]) then RunEnd(text, start + 1, cls.letter)
    else if start < |text| && cls.number(text[start]) then RunEnd(text, start + 1, cls.number)
    else if start < |text| && !cls.space(text[start]) then RunEnd(text, start + 1, cls.Other())
    else
      var j := RunEnd(text, i, cls.space);
      if j < |text| && j - i > 1 then j - 1 else j
  }

  function Words(cls: Classes, text: string, i: nat): seq<string>
    requires cls.Ok() && i <= |text|
    decreases |text| - i
  {
    if i == |text| then []
    else
      var e := WordEnd(cls, text, i);
      [text[i..e]] + Words(cls, text, e)
  }

  predicate AllIn(w: string, p: char -> bool) { forall k :: 0 <= k < |w| ==> p(w[k]) }

  /** A run of one class, after at most one blank. */
  predicate Run(w: string, p: char -> bool) {
    w != [] && (AllIn(w, p) || (w[0] == ' ' && |w| > 1 && AllIn(w[1..], p)))
  }

  predicate NoneIn(cls: Classes, w: string) {
    forall k :: 0 <= k < |w| ==> !cls.space(w[k]) && !cls.letter(w[k]) && !cls.number(w[k])
  }

  /** A run of neither letters nor numbers nor whitespace, after at most one blank. */
  predicate OtherRun(cls: Classes, w: string) {
    w != [] && (NoneIn(cls, w) || (w[0] == ' ' && |w| > 1 && NoneIn(cls, w[1..])))
  }

  lemma OtherIsNone(cls: Classes, w: string)
    requires Run(w, cls.Other())
    ensures OtherRun(cls, w)
  {}

  predicate IsWord(cls: Classes, w: string) {
    w in CONTRACTIONS || Run(w, cls.letter) || Run(w, cls.number) || OtherRun(cls, w)
    || (w != [] && AllIn(w, cls.space))
  }

  /** A run of p from `start`, taken with the blank before it if there is one. */
  lemma RunIsWord(text: string, i: nat, start: nat, p: char -> bool)
    requires start < |text| && p(text[start]) && (start == i || (start == i + 1 && text[i] == ' '))
    ensures Run(text[i..RunEnd(text, start + 1, p)], p)
  {
    var e := RunEnd(text, start + 1, p);
    var w := text[i..e];
    assert forall k :: start <= k < e ==> p(text[k]);
    if start == i {
      assert AllIn(w, p);
    } else {
      assert w[0] == ' ' && AllIn(w[1..], p);
    }
  }

  lemma WordEndsAtWord(cls: Classes, text: string, i: nat)
    requires cls.Ok() && i < |text|
    ensures IsWord(cls, text[i..WordEnd(cls, text, i)])
  {
    hide Contraction, RunEnd, Run, AllIn, Classes.Other;
    var len := if text[i] == '\'' && i + 1 < |text| then Contraction(text[i..]) else 0;
    if len > 0 {
      ContractionListed(text[i..]);
      assert text[i..i + len] == text[i..][..len];
    } else {
      RunEndsAtWord(cls, text, i);
    }
  }

  lemma RunEndsAtWord(cls: Classes, text: string, i: nat)
    requires cls.Ok() && i < |text| && !(text[i] == '\'' && i + 1 < |text| && Contraction(text[i..]) > 0)
    ensures IsWord(cls, text[i..WordEnd(cls, text, i)])
  {
    hide Contraction, RunEnd, Run, AllIn;
    var start := if text[i] == ' ' then i + 1 else i;
    if start < |text| && cls.letter(text[start]) {
      RunIsWord(text, i, start, cls.letter);
    } else if start < |text| && cls.number(text[start]) {
      RunIsWord(text, i, start, cls.number);
    } else if start < |text| && !cls.space(text[start]) {
      RunIsWord(text, i, start, cls.Other());
      OtherIsNone(cls, text[i..RunEnd(text, start + 1, cls.Other())]);
    } else {
      SpacesAreWord(cls, text, i);
    }
  }

  lemma SpacesAreWord(cls: Classes, text: string, i: nat)
    requires i < |text|
    ensures var j := RunEnd(text, i, cls.space); AllIn(text[i..j], cls.space)
    ensures var j := RunEnd(text, i, cls.space); j > i ==> AllIn(text[i..j - 1], cls.space)
  {}

  /** The pieces are words and spell the text. */
  lemma {:induction false} WordsSpellText(cls: Classes, text: string, i: nat)
    requires cls.Ok() && i <= |text|
    ensures Concat(Words(cls, text, i)) == text[i..]
    ensures forall w :: w in Words(cls, text, i) ==> IsWord(cls, w)
    decreases |text| - i
  {
    hide WordEnd, IsWord;
    if i < |text| {
      var e := WordEnd(cls, text, i);
      WordEndsAtWord(cls, text, i);
      WordsSpellText(cls, text, e);
      assert text[i..] == text[i..e] + text[e..];
    }
  }

  method FindRunEnd(text: string, from: nat, p: char -> bool) returns (j: nat)
    requires from <= |text|
    ensures j == RunEnd(text, from, p)
  {
    j := from;
    while j < |text| && p(text[j])
      invariant from <= j <= |text| && RunEnd(text, j, p) == RunEnd(text, from, p)
    {
      j := j + 1;
    }
  }

  /** `pretokenize`: it ends, its pieces are words, and they spell the text. */
  method Pretokenize(cls: Classes, text: string) returns (words: seq<string>)
    requires cls.Ok()
    ensures words == Words(cls, text, 0)
    ensures Concat(words) == text && forall w :: w in words ==> IsWord(cls, w)
  {
    words := [];
    var i := 0;
    while i < |text|
      invariant i <= |text| && words + Words(cls, text, i) == Words(cls, text, 0)
      decreases |text| - i
    {
      ghost var i0 := i;
      var e := NextWord(cls, text, i);
      words := words + [text[i..e]];
      i := e;
      assert Words(cls, text, i0) == [text[i0..e]] + Words(cls, text, e);
    }
    WordsSpellText(cls, text, 0);
    assert words + [] == words && text[0..] == text;
  }

  /** The first of the seven that the text starts with. */
  method MatchContraction(s: string) returns (len: nat)
    ensures len == Contraction(s)
  {
    for k := 0 to 7
      invariant forall j :: 0 <= j < k ==> !(CONTRACTIONS[j] <= s)
    {
      if CONTRACTIONS[k] <= s {
        OnlyMatch(s, k);
        return |CONTRACTIONS[k]|;
      }
    }
    NoMatch(s);
    len := 0;
  }

  lemma OnlyMatch(s: string, k: nat)
    requires k < 7 && CONTRACTIONS[k] <= s && forall j :: 0 <= j < k ==> !(CONTRACTIONS[j] <= s)
    ensures Contraction(s) == |CONTRACTIONS[k]|
  {
    Listing();
    assert s[..2] == CONTRACTIONS[k][..2];
  }

  lemma NoMatch(s: string)
    requires forall j :: 0 <= j < 7 ==> !(CONTRACTIONS[j] <= s)
    ensures Contraction(s) == 0
  {
    Listing();
  }

  lemma Listing()
    ensures CONTRACTIONS[0] == "'s" && CONTRACTIONS[1] == "'t" && CONTRACTIONS[2] == "'re" && CONTRACTIONS[3] == "'ve"
    ensures CONTRACTIONS[4] == "'m" && CONTRACTIONS[5] == "'ll" && CONTRACTIONS[6] == "'d"
  {}

  lemma {:induction false} SameRun(text: string, j: nat, p: char -> bool, q: char -> bool)
    requires j <= |text| && forall c :: p(c) == q(c)
    ensures RunEnd(text, j, p) == RunEnd(text, j, q)
    decreases |text| - j
  {
    if j < |text| && p(text[j]) { SameRun(text, j + 1, p, q); }
  }

  method NextWord(cls: Classes, text: string, i: nat) returns (e: nat)
    requires cls.Ok() && i < |text|
    ensures e == WordEnd(cls, text, i)
  {
    if text[i] == '\'' && i + 1 < |text| {
      var len := MatchContraction(text[i..]);
      if len > 0 { return i + len; }
    }
    var start := if text[i] == ' ' then i + 1 else i;
    if start < |text| {
      var c := text[start];
      if cls.letter(c) {
        e := FindRunEnd(text, start + 1, cls.letter);
        return;
      }
      if cls.number(c) {
        e := FindRunEnd(text, start + 1, cls.number);
        return;
      }
      if !cls.space(c) {
        e := FindRunEnd(text, start + 1, (d: char) => !cls.space(d) && !cls.letter(d) && !cls.number(d));
        SameRun(text, start + 1, (d: char) => !cls.space(d) && !cls.letter(d) && !cls.number(d), cls.Other());
        return;
      }
    }
    var j := FindRunEnd(text, i, cls.space);
    e := if j < |text| && j - i > 1 then j - 1 else j;
  }
}
