/** The byte-level BPE tokenizer: special tokens first, the gaps through pretokenisation and merging;
    and when decoding gives back the text. */
module Tokenizing {
  import opened Bytes
  import opened ByteLevel
  import opened Bpe
  import opened Pretokenizer

  /** The least position at or after `from` where tok occurs in text, or -1. */
  function FindFrom(text: string, tok: string, from: nat): (pos: int)
    requires from <= |text|
    ensures pos >= 0 ==> from <= pos && OccursAt(text, tok, pos)
    ensures forall p :: from <= p && (pos < 0 || p < pos) ==> !OccursAt(text, tok, p)
    decreases |text| - from
  {
    if OccursAt(text, tok, from) then from else if from == |text| then -1 else FindFrom(text, tok, from + 1)
  }

  predicate OccursAt(text: string, tok: string, pos: nat) {
    pos + |tok| <= |text| && text[pos..pos + |tok|] == tok
  }

  function Find(text: string, tok: string): int { FindFrom(text, tok, 0) }

  lemma OccursInPrefix(text: string, n: nat, tok: string, p: nat)
    requires n <= |text|
    ensures OccursAt(text[..n], tok, p) ==> OccursAt(text, tok, p) && p + |tok| <= n
  {
    assert p + |tok| <= n ==> text[..n][p..p + |tok|] == text[p..p + |tok|];
  }

  datatype Tokenizer = Tokenizer(vocab: map<string, nat>, tokens: seq<string>, ranks: Ranks,
                                 special: seq<(string, nat)>, classes: Classes) {

    /** As the constructor leaves it; special tokens must not be empty, or encoding them never ends. */
    predicate Ok() {
      && classes.Ok()
      && (forall s :: s in vocab ==> vocab[s] < |tokens| && tokens[vocab[s]] == s)
      && (forall k :: 0 <= k < |special| ==>
            special[k].0 != [] && special[k].1 < |tokens| && tokens[special[k].1] == special[k].0)
    }

    /** Every byte has a token of its own. */
    predicate FullAlphabet() { forall b: Byte :: [ByteChar(b)] in vocab }

    // ---- Special tokens ----

    /** The special token to cut at: earliest first, then longest; -1 if none of the first n occurs. */
    function NextOf(text: string, n: nat): (k: int)
      requires n <= |special|
      ensures -1 <= k < n
      ensures k < 0 ==> forall j :: 0 <= j < n ==> Find(text, special[j].0) < 0
      ensures k >= 0 ==> Find(text, special[k].0) >= 0
    {
      if n == 0 then -1
      else
        var k := NextOf(text, n - 1);
        var pos := Find(text, special[n - 1].0);
        if pos >= 0 && (k < 0 || Better(text, n - 1, k)) then n - 1 else k
    }

    predicate Better(text: string, j: nat, k: nat)
      requires j < |special| && k < |special|
    {
      var pos, best := Find(text, special[j].0), Find(text, special[k].0);
      pos < best || (pos == best && |Utf8(special[j].0)| > |Utf8(special[k].0)|)
    }

    /** Special j does not occur, or occurs later than k, or there too but no longer. */
    predicate NotBefore(text: string, j: nat, k: nat)
      requires j < |special| && k < |special|
    {
      Find(text, special[j].0) < 0 || !Better(text, j, k)
    }

    function Next(text: string): (k: int)
      ensures -1 <= k < |special|
    {
      NextOf(text, |special|)
    }

    /** Nothing comes before the choice, and nothing longer at its place. */
    lemma {:induction false} NextIsFirst(text: string, n: nat, j: nat)
      requires j < n <= |special| && NextOf(text, n) >= 0
      ensures NotBefore(text, j, NextOf(text, n))
    {
      hide Find;
      if j < n - 1 && NextOf(text, n - 1) >= 0 { NextIsFirst(text, n - 1, j); }
    }

    /** A gap in front of a special token contains no special token; nor does a text cut nowhere. */
    lemma GapsArePlain(text: string, j: nat, p: nat)
      requires j < |special| && special[j].0 != []
      ensures Next(text) < 0 ==> !OccursAt(text, special[j].0, p)
      ensures Next(text) >= 0 ==> !OccursAt(text[..Find(text, special[Next(text)].0)], special[j].0, p)
    {
      if Next(text) >= 0 {
        NextIsFirst(text, |special|, j);
        OccursInPrefix(text, Find(text, special[Next(text)].0), special[j].0, p);
      }
    }

    /** The loop of `encode_into` cuts something off this text, or is done with it. */
    predicate Progresses(text: string) {
      Next(text) >= 0 ==> Find(text, special[Next(text)].0) + |special[Next(text)].0| > 0
    }

    predicate NoEmptySpecial() { forall k :: 0 <= k < |special| ==> special[k].0 != [] }

    predicate EveryCharSpecial() { forall c: char :: IsSpecialText([c]) }

    predicate IsSpecialText(text: string) { exists k :: 0 <= k < |special| && special[k].0 == text }

    /** Encoding makes progress at every cut of every text exactly when no special token is empty (or, not that any
        vocabulary is like that, every single character is a special token and so is cut off first). */
    lemma ProgressIff()
      ensures (forall text :: text != [] ==> Progresses(text)) <==> NoEmptySpecial() || EveryCharSpecial()
    {
      hide Tokenizer.Next, Find, Tokenizer.Progresses;
      if NoEmptySpecial() || EveryCharSpecial() {
        forall text | text != []
          ensures Progresses(text)
        {
          CutsSomething(text);
        }
      } else {
        var k :| 0 <= k < |special| && special[k].0 == [];
        var c: char :| !IsSpecialText([c]);
        StuckAt(k, c);
        assert [c] != [];
      }
    }

    /** The input on which an empty special token keeps the loop where it is: the token is found at once, and what is
        left is the whole text again. */
    lemma StuckAt(k: nat, c: char)
      requires k < |special| && special[k].0 == [] && !IsSpecialText([c])
      ensures !Progresses([c])
      ensures Next([c]) >= 0 && [c][Find([c], special[Next([c])].0) + |special[Next([c])].0|..] == [c]
    {
      var text := [c];
      assert OccursAt(text, special[k].0, 0);
      var n := Next(text);
      NextIsFirst(text, |special|, k);
      var tok, start := special[n].0, Find(text, special[n].0);
      assert start == 0;
      assert OccursAt(text, tok, 0);
    }

    lemma CutsSomething(text: string)
      requires text != [] && (NoEmptySpecial() || EveryCharSpecial())
      ensures Progresses(text)
    {
      var n := Next(text);
      if n >= 0 && special[n].0 == [] && Find(text, []) == 0 {
        assert IsSpecialText([text[0]]);
        var k :| 0 <= k < |special| && special[k].0 == [text[0]];
        assert OccursAt(text, special[k].0, 0);
        NextIsFirst(text, |special|, k);
        EmptyIsShorter([text[0]]);
      }
    }

    lemma EmptyIsShorter(s: string)
      requires s != []
      ensures |Utf8([])| < |Utf8(s)|
    {
      Utf8Grows([], s);
    }

    // ---- Encoding ----

    /** A merged symbol's id, or the ids of its characters. */
    function SymbolIds(s: string): seq<nat> {
      if s in vocab then [vocab[s]] else CharIds(s)
    }

    function CharIds(s: string): seq<nat> {
      if s == [] then [] else (if [s[0]] in vocab then [vocab[[s[0]]]] else []) + CharIds(s[1..])
    }

    function AllIds(symbols: Symbols): seq<nat> {
      if symbols == [] then [] else SymbolIds(symbols[0]) + AllIds(symbols[1..])
    }

    function ByteSymbols(bytes: seq<Byte>): (s: Symbols)
      ensures |s| == |bytes|
    {
      seq(|bytes|, i requires 0 <= i < |bytes| => [ByteChar(bytes[i])])
    }

    function WordIds(word: string): seq<nat> {
      AllIds(MergeAll(ranks, ByteSymbols(Utf8(word))))
    }

    function WordsIds(words: seq<string>): seq<nat> {
      if words == [] then [] else WordIds(words[0]) + WordsIds(words[1..])
    }

    function PlainIds(text: string): seq<nat>
      requires classes.Ok()
    {
      WordsIds(Words(classes, text, 0))
    }

    function TextIds(text: string): seq<nat>
      requires Ok()
      decreases |text|
    {
      if text == [] then []
      else
        var k := Next(text);
        if k < 0 then PlainIds(text)
        else
          var start, tok := Find(text, special[k].0), special[k].0;
          (if start > 0 then PlainIds(text[..start]) else []) + [special[k].1] + TextIds(text[start + |tok|..])
    }

    // ---- What the ids of a word stand for ----

    /** Each id is that of the token beside it. */
    predicate Writes(ids: seq<nat>, pieces: seq<string>) {
      |ids| == |pieces| && forall i :: 0 <= i < |ids| ==> ids[i] < |tokens| && tokens[ids[i]] == pieces[i]
    }

    /** The characters of s that are tokens by themselves, in order. */
    function KnownChars(s: string): seq<string> {
      if s == [] then []
      else
        var rest := KnownChars(s[..|s| - 1]);
        if [s[|s| - 1]] in vocab then rest + [[s[|s| - 1]]] else rest
    }

    lemma WritesJoin(a: seq<nat>, p: seq<string>, b: seq<nat>, q: seq<string>)
      requires Writes(a, p) && Writes(b, q)
      ensures Writes(a + b, p + q)
    {}

    lemma {:induction false} CharIdsJoin(a: string, b: string)
      ensures CharIds(a + b) == CharIds(a) + CharIds(b)
    {
      if a == [] {
        assert a + b == b;
      } else {
        hide Tokenizer.CharIds;
        CharIdsJoin(a[1..], b);
        TailOfText(a, b);
        CharIdsStep(a);
        CharIdsStep(a + b);
      }
    }

    lemma TailOfText(a: string, b: string)
      requires a != []
      ensures (a + b)[0] == a[0] && (a + b)[1..] == a[1..] + b
    {}

    lemma CharIdsStep(s: string)
      requires s != []
      ensures CharIds(s) == (if [s[0]] in vocab then [vocab[[s[0]]]] else []) + CharIds(s[1..])
    {}

    /** A symbol that is not in the vocabulary becomes its known characters. */
    lemma {:induction false} CharTokens(s: string)
      requires Ok()
      ensures Writes(CharIds(s), KnownChars(s))
    {
      if s != [] {
        var n := |s| - 1;
        var last := [s[n]];
        CharTokens(s[..n]);
        CharIdsJoin(s[..n], last);
        assert s == s[..n] + last && last[1..] == [];
        assert CharIds(last) == if last in vocab then [vocab[last]] else [];
        if last in vocab { WritesJoin(CharIds(s[..n]), KnownChars(s[..n]), [vocab[last]], [last]); }
      }
    }

    /** A symbol in the vocabulary is one id, its own; another is the ids of its known characters. */
    lemma SymbolTokens(s: string)
      requires Ok()
      ensures Writes(SymbolIds(s), if s in vocab then [s] else KnownChars(s))
    {
      if s !in vocab { CharTokens(s); }
    }

    /** The tokens that a list of symbols is written in. */
    function Pieces(symbols: Symbols): seq<string> {
      if symbols == [] then []
      else
        var n := |symbols| - 1;
        Pieces(symbols[..n]) + (if symbols[n] in vocab then [symbols[n]] else KnownChars(symbols[n]))
    }

    lemma {:induction false} AllIdsJoin(a: Symbols, b: Symbols)
      ensures AllIds(a + b) == AllIds(a) + AllIds(b)
    {
      hide Tokenizer.SymbolIds;
      if a == [] {
        assert a + b == b;
      } else {
        hide Tokenizer.AllIds;
        AllIdsJoin(a[1..], b);
        TailOfJoin(a, b);
        AllIdsStep(a);
        AllIdsStep(a + b);
      }
    }

    lemma AllIdsStep(symbols: Symbols)
      requires symbols != []
      ensures AllIds(symbols) == SymbolIds(symbols[0]) + AllIds(symbols[1..])
    {}

    lemma {:induction false} SymbolsTokens(symbols: Symbols)
      requires Ok()
      ensures Writes(AllIds(symbols), Pieces(symbols))
    {
      hide Tokenizer.SymbolIds, Tokenizer.KnownChars;
      if symbols != [] {
        var n := |symbols| - 1;
        SymbolsTokens(symbols[..n]);
        AllIdsJoin(symbols[..n], [symbols[n]]);
        assert symbols == symbols[..n] + [symbols[n]];
        LastIds(symbols[n]);
        SymbolTokens(symbols[n]);
        WritesJoin(AllIds(symbols[..n]), Pieces(symbols[..n]), SymbolIds(symbols[n]),
                   if symbols[n] in vocab then [symbols[n]] else KnownChars(symbols[n]));
      }
    }

    lemma LastIds(s: string)
      ensures AllIds([s]) == SymbolIds(s)
    {
      hide Tokenizer.SymbolIds;
      assert [s][1..] == [];
    }

    lemma {:induction false} KnownPieces(symbols: Symbols)
      requires forall i :: 0 <= i < |symbols| ==> symbols[i] in vocab
      ensures Pieces(symbols) == symbols
    {
      if symbols != [] {
        KnownPieces(symbols[..|symbols| - 1]);
        assert symbols == symbols[..|symbols| - 1] + [symbols[|symbols| - 1]];
      }
    }

    /** A word's ids are the tokens of its merged symbols, one each, or the known characters of those that are not in
        the vocabulary. */
    lemma WordTokens(word: string)
      requires Ok()
      ensures var merged := MergeAll(ranks, ByteSymbols(Utf8(word)));
        && Writes(WordIds(word), Pieces(merged))
        && ((forall i :: 0 <= i < |merged| ==> merged[i] in vocab) ==> Writes(WordIds(word), merged))
    {
      hide MergeAll, Tokenizer.ByteSymbols, Utf8;
      var merged := MergeAll(ranks, ByteSymbols(Utf8(word)));
      SymbolsTokens(merged);
      if forall i :: 0 <= i < |merged| ==> merged[i] in vocab { KnownPieces(merged); }
    }

    /** So where every merged symbol is a token, no two neighbours among a word's tokens could be merged further. */
    lemma WordIsMerged(word: string, i: nat)
      requires Ok() && i + 1 < |WordIds(word)|
      requires var merged := MergeAll(ranks, ByteSymbols(Utf8(word)));
        forall k :: 0 <= k < |merged| ==> merged[k] in vocab
      ensures var ids := WordIds(word);
        ids[i] < |tokens| && ids[i + 1] < |tokens| && Rank(ranks, tokens[ids[i]], tokens[ids[i + 1]]) == NO_RANK
    {
      hide MergeAll, Tokenizer.ByteSymbols, Utf8, Tokenizer.WordIds;
      var merged, ids := MergeAll(ranks, ByteSymbols(Utf8(word))), WordIds(word);
      WordTokens(word);
      MergingEnds(ranks, ByteSymbols(Utf8(word)));
      assert PairRank(ranks, merged, i) == NO_RANK;
    }

    // ---- Decoding ----

    function TokenBytes(id: nat): seq<Byte> {
      if id < |tokens| then PieceBytes(tokens[id]) else []
    }

    function Decoded(ids: seq<nat>): seq<Byte> {
      if ids == [] then [] else TokenBytes(ids[0]) + Decoded(ids[1..])
    }

    lemma {:induction false} DecodedJoin(a: seq<nat>, b: seq<nat>)
      ensures Decoded(a + b) == Decoded(a) + Decoded(b)
    {
      hide Tokenizer.TokenBytes;
      if a == [] {
        assert a + b == b;
      } else {
        DecodedJoin(a[1..], b);
        assert (a + b)[1..] == a[1..] + b && (a + b)[0] == a[0];
      }
    }

    lemma DecodedOne(id: nat)
      ensures Decoded([id]) == TokenBytes(id)
    {}

    // ---- The round trip ----

    predicate ByteText(s: string) { forall i :: 0 <= i < |s| ==> CharByte(s[i]) >= 0 }

    lemma {:induction false} CharsDecode(s: string)
      requires Ok() && FullAlphabet() && ByteText(s)
      ensures Decoded(CharIds(s)) == PieceBytes(s)
    {
      if s != [] {
        var c, rest := s[0], s[1..];
        ByteTable(B(CharByte(c)), c);
        assert [c] == [ByteChar(B(CharByte(c)))];
        CharsDecode(rest);
        DecodedJoin([vocab[[c]]], CharIds(rest));
        DecodedOne(vocab[[c]]);
        PieceJoin([c], rest);
        assert s == [c] + rest;
      }
    }

    lemma SymbolDecodes(s: string)
      requires Ok() && FullAlphabet() && ByteText(s)
      ensures Decoded(SymbolIds(s)) == PieceBytes(s)
    {
      if s in vocab { DecodedOne(vocab[s]); } else { CharsDecode(s); }
    }

    lemma {:induction false} SymbolsDecode(symbols: Symbols)
      requires Ok() && FullAlphabet() && ByteText(Concat(symbols))
      ensures Decoded(AllIds(symbols)) == PieceBytes(Concat(symbols))
    {
      hide Tokenizer.SymbolIds, PieceBytes, Tokenizer.Decoded, Tokenizer.FullAlphabet;
      if symbols == [] {
        assert Decoded(AllIds(symbols)) == [] == PieceBytes(Concat(symbols)) by { NothingDecodes(); }
      } else {
        var s, rest := symbols[0], symbols[1..];
        assert Concat(symbols) == s + Concat(rest);
        assert ByteText(s) && ByteText(Concat(rest)) by { PartsAreByteText(s, Concat(rest)); }
        SymbolDecodes(s);
        SymbolsDecode(rest);
        DecodedJoin(SymbolIds(s), AllIds(rest));
        PieceJoin(s, Concat(rest));
      }
    }

    lemma NothingDecodes()
      ensures Decoded([]) == [] && PieceBytes([]) == []
    {}

    lemma PartsAreByteText(a: string, b: string)
      requires ByteText(a + b)
      ensures ByteText(a) && ByteText(b)
    {
      forall i | 0 <= i < |a| ensures CharByte(a[i]) >= 0 { assert a[i] == (a + b)[i]; }
      forall i | 0 <= i < |b| ensures CharByte(b[i]) >= 0 { assert b[i] == (a + b)[|a| + i]; }
    }

    lemma {:induction false} SymbolsSpell(bytes: seq<Byte>)
      ensures Concat(ByteSymbols(bytes)) == ByteString(bytes) && ByteText(ByteString(bytes))
    {
      if bytes != [] {
        SymbolsSpell(bytes[1..]);
        ByteTable(bytes[0], ByteChar(bytes[0]));
        assert ByteSymbols(bytes)[1..] == ByteSymbols(bytes[1..]);
        assert ByteString(bytes) == [ByteChar(bytes[0])] + ByteString(bytes[1..]);
      }
    }

    /** A word's ids decode to its UTF-8 bytes: merging loses nothing. */
    lemma WordDecodes(word: string)
      requires Ok() && FullAlphabet()
      ensures Decoded(WordIds(word)) == Utf8(word)
    {
      hide Tokenizer.Decoded, PieceBytes, Utf8, Concat, MergeAll, Tokenizer.ByteSymbols, ByteString, Tokenizer.ByteText;
      var bytes := Utf8(word);
      SymbolsSpell(bytes);
      MergingEnds(ranks, ByteSymbols(bytes));
      SymbolsDecode(MergeAll(ranks, ByteSymbols(bytes)));
      ByteStringBack(bytes);
    }

    lemma {:induction false} WordsDecode(words: seq<string>)
      requires Ok() && FullAlphabet()
      ensures Decoded(WordsIds(words)) == Utf8(Concat(words))
    {
      hide Tokenizer.Decoded, Utf8, Tokenizer.WordIds;
      if words == [] {
        assert Decoded([]) == [] && Utf8([]) == [] by { NothingDecodes(); EmptyUtf8(); }
      } else {
        WordDecodes(words[0]);
        WordsDecode(words[1..]);
        DecodedJoin(WordIds(words[0]), WordsIds(words[1..]));
        Utf8Join(words[0], Concat(words[1..]));
      }
    }

    lemma EmptyUtf8()
      ensures Utf8([]) == []
    {}

    lemma PlainDecodes(text: string)
      requires Ok() && FullAlphabet()
      ensures Decoded(PlainIds(text)) == Utf8(text)
    {
      WordsDecode(Words(classes, text, 0));
      WordsSpellText(classes, text, 0);
      assert text[0..] == text;
    }

    /** Every special token is its own byte-level image. */
    predicate SpecialsAreBytes() {
      forall k :: 0 <= k < |special| ==> PieceBytes(special[k].0) == Utf8(special[k].0)
    }

    lemma {:induction false} TextDecodes(text: string)
      requires Ok() && FullAlphabet() && SpecialsAreBytes()
      ensures Decoded(TextIds(text)) == Utf8(text)
      decreases |text|
    {
      hide Tokenizer.Decoded, Utf8, Tokenizer.PlainIds, PieceBytes, Tokenizer.FullAlphabet;
      if text == [] {
        NothingDecodes();
        EmptyUtf8();
      } else if Next(text) < 0 {
        PlainDecodes(text);
      } else {
        var k := Next(text);
        var start, tok, id := Find(text, special[k].0), special[k].0, special[k].1;
        var gap, rest := text[..start], text[start + |tok|..];
        var front := if start > 0 then PlainIds(gap) else [];
        if start > 0 { PlainDecodes(gap); } else { NothingDecodes(); EmptyUtf8(); }
        TextDecodes(rest);
        DecodedOne(id);
        DecodedJoin(front, [id]);
        DecodedJoin(front + [id], TextIds(rest));
        assert text == (gap + tok) + rest;
        Utf8Join(gap, tok);
        Utf8Join(gap + tok, rest);
      }
    }

    /** A special token alone is encoded as one id, which spells it. */
    lemma SpecialAlone(k: nat)
      requires Ok() && k < |special|
      ensures Decoded(TextIds(special[k].0)) == PieceBytes(special[k].0)
    {
      var text := special[k].0;
      assert OccursAt(text, text, 0);
      var n := Next(text);
      NextIsFirst(text, |special|, k);
      var start, tok := Find(text, special[n].0), special[n].0;
      var rest := text[|tok|..];
      assert start == 0 && text == tok + rest;
      Utf8Grows(tok, rest);
      assert rest == [] && tok == text;
      assert TextIds(text) == [special[n].1] + TextIds(text[start + |tok|..]);
      DecodedOne(special[n].1);
    }

    /** Texts with the same ids are the same text. */
    lemma EncodingInjective(a: string, b: string)
      requires Ok() && FullAlphabet() && SpecialsAreBytes() && TextIds(a) == TextIds(b)
      ensures a == b
    {
      TextDecodes(a);
      TextDecodes(b);
      Utf8Injective(a, b);
    }

    /** Decoding gives back every text exactly when each special token is its own byte-level image
        (every byte having its token). */
    lemma RoundTrip()
      requires Ok() && FullAlphabet()
      ensures (forall text :: Decoded(TextIds(text)) == Utf8(text)) <==> SpecialsAreBytes()
    {
      if SpecialsAreBytes() {
        forall text ensures Decoded(TextIds(text)) == Utf8(text) { TextDecodes(text); }
      } else {
        var k :| 0 <= k < |special| && PieceBytes(special[k].0) != Utf8(special[k].0);
        SpecialAlone(k);
      }
    }

    /** A word's symbols never contain the key separator, so it is merged as if rank by rank: on a table where nothing
        undercuts or whose entries never overlap, and on any table if the ranks applied to the word never drop. */
    lemma WordByRank(word: string)
      requires Injective(ranks)
      requires NothingUndercuts(ranks) || Disjoint(ranks) || NonDecreasing(RanksApplied(ranks, ByteSymbols(Utf8(word))))
      ensures WordIds(word) == AllIds(ByRank(ranks, ByteSymbols(Utf8(word))))
    {
      hide NothingUndercuts, Disjoint, NonDecreasing;
      var symbols := ByteSymbols(Utf8(word));
      assert AllClean(symbols);
      if Disjoint(ranks) {
        DisjointIsByRank(ranks, symbols);
      } else {
        if NothingUndercuts(ranks) { RanksNeverDrop(ranks, symbols); }
        RunIsByRank(ranks, symbols);
      }
    }

    // ---- The loops ----

    method FindNextSpecial(text: string) returns (best: int)
      ensures best == Next(text)
    {
      hide Find, Utf8;
      best := -1;
      for j := 0 to |special|
        invariant best == NextOf(text, j)
      {
        var pos := Find(text, special[j].0);
        if pos >= 0 {
          if best < 0 || pos < Find(text, special[best].0)
             || (pos == Find(text, special[best].0) && |Utf8(special[j].0)| > |Utf8(special[best].0)|) {
            best := j;
          }
        }
      }
    }

    method BpeEncode(text: string, out: seq<nat>) returns (ids: seq<nat>)
      requires Ok()
      ensures ids == out + PlainIds(text)
    {
      hide Words, Tokenizer.WordIds;
      ids := out;
      var words := Pretokenize(classes, text);
      for i := 0 to |words|
        invariant ids + WordsIds(words[i..]) == out + WordsIds(words)
      {
        var wordIds := WordEncode(words[i]);
        assert words[i..][1..] == words[i + 1..];
        ids := ids + wordIds;
      }
      assert ids + [] == ids;
    }

    lemma SymbolCases(s: string)
      ensures SymbolIds(s) == if s in vocab then [vocab[s]] else CharIds(s)
    {}

    lemma OneSymbolMore(symbols: Symbols, i: nat)
      requires i < |symbols|
      ensures AllIds(symbols[..i + 1]) == AllIds(symbols[..i]) + SymbolIds(symbols[i])
    {
      hide Tokenizer.SymbolIds;
      assert symbols[..i + 1] == symbols[..i] + [symbols[i]];
      AllIdsJoin(symbols[..i], [symbols[i]]);
      LastIds(symbols[i]);
    }

    /** The characters of a symbol that has no token, those that do. */
    method FallBack(symbol: string, out: seq<nat>) returns (ids: seq<nat>)
      ensures ids == out + CharIds(symbol)
    {
      ids := out;
      for i := 0 to |symbol|
        invariant ids + CharIds(symbol[i..]) == out + CharIds(symbol)
      {
        assert symbol[i..][1..] == symbol[i + 1..];
        if [symbol[i]] in vocab { ids := ids + [vocab[[symbol[i]]]]; }
      }
      assert ids + [] == ids;
    }

    method WordEncode(word: string) returns (ids: seq<nat>)
      ensures ids == WordIds(word)
    {
      hide Tokenizer.SymbolIds, MergeAll;
      var symbols := MergeSymbols(ranks, ByteSymbols(Utf8(word)));
      ids := [];
      for i := 0 to |symbols|
        invariant ids == AllIds(symbols[..i])
      {
        SymbolCases(symbols[i]);
        OneSymbolMore(symbols, i);
        if symbols[i] in vocab {
          ids := ids + [vocab[symbols[i]]];
        } else {
          ids := FallBack(symbols[i], ids);
        }
      }
      assert symbols[..|symbols|] == symbols;
    }

    /** `encode_into`: splits at special tokens and encodes the gaps. */
    method EncodeInto(text: string, out: seq<nat>) returns (ids: seq<nat>)
      requires Ok()
      ensures ids == out + TextIds(text)
    {
      hide Tokenizer.PlainIds;
      ids := out;
      var rest := text;
      while rest != []
        invariant ids + TextIds(rest) == out + TextIds(text)
        decreases |rest|
      {
        var k := FindNextSpecial(rest);
        if k < 0 {
          ids := BpeEncode(rest, ids);
          return;
        }
        var start, tok := Find(rest, special[k].0), special[k].0;
        ghost var before := ids;
        if start > 0 { ids := BpeEncode(rest[..start], ids); }
        ids := ids + [special[k].1];
        var next := rest[start + |tok|..];
        var front := if start > 0 then PlainIds(rest[..start]) else [];
        assert before + (front + [special[k].1] + TextIds(next)) == ids + TextIds(next);
        rest := next;
      }
      assert ids + [] == ids;
    }

    method Decode(ids: seq<nat>) returns (bytes: seq<Byte>)
      ensures bytes == Decoded(ids)
    {
      hide PieceBytes;
      bytes := [];
      for i := 0 to |ids|
        invariant bytes + Decoded(ids[i..]) == Decoded(ids)
      {
        assert ids[i..][1..] == ids[i + 1..];
        if ids[i] < |tokens| {
          var piece := PieceToBytes(tokens[ids[i]]);
          bytes := bytes + piece;
        }
      }
      assert bytes + [] == bytes;
    }
  }

  /** Token types that are matched literally: control and user-defined. */
  predicate IsSpecial(kind: int) { kind == 3 || kind == 4 }

  /** Loading: the vocabulary inverts the token list, and every special entry is a token with its own id. */
  method Load(tokens: seq<string>, types: seq<int>, merges: seq<string>, classes: Classes) returns (t: Tokenizer)
    requires classes.Ok()
    ensures t.tokens == tokens && t.ranks == RanksOf(merges) && Injective(t.ranks)
    ensures forall id :: 0 <= id < |tokens| ==> tokens[id] in t.vocab
    ensures (forall id :: 0 <= id < |tokens| && id < |types| && IsSpecial(types[id]) ==> tokens[id] != []) ==> t.Ok()
    ensures forall id :: 0 <= id < |tokens| && id < |types| && IsSpecial(types[id]) ==> (tokens[id], id) in t.special
  {
    var vocab: map<string, nat>, special: seq<(string, nat)> := map[], [];
    for id := 0 to |tokens|
      invariant forall s :: s in vocab ==> vocab[s] < id && tokens[vocab[s]] == s
      invariant forall i :: 0 <= i < id ==> tokens[i] in vocab
      invariant forall k :: 0 <= k < |special| ==>
        special[k].1 < id && special[k].1 < |types| && IsSpecial(types[special[k].1])
      invariant forall k :: 0 <= k < |special| ==> tokens[special[k].1] == special[k].0
      invariant forall i :: 0 <= i < id && i < |types| && IsSpecial(types[i]) ==> (tokens[i], i) in special
    {
      vocab := vocab[tokens[id] := id];
      if id < |types| && (types[id] == 3 || types[id] == 4) { special := special + [(tokens[id], id)]; }
    }
    var ranks := BuildRanks(merges);
    t := Tokenizer(vocab, tokens, ranks, special, classes);
  }
}
