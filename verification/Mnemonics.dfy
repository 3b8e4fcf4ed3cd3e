/** The mnemonic encoding of aezeed: 33 bytes as 24 words of 11 bits each. */
module Mnemonics {
  import opened Bytes
  import opened BitStream

  const ENCIPHERED_SIZE: nat := 33
  const NUM_WORDS: nat := 24
  const BITS_PER_WORD: nat := 11

  /** A word list that has a word for every index and no word twice. */
  ghost predicate WordList(words: seq<string>) {
    |words| == 2048 && forall i, j :: 0 <= i < j < |words| ==> words[i] != words[j]
  }

  lemma Sizes()
    ensures Pow2(8) == 256 && Pow2(BITS_PER_WORD) == 2048
    ensures Total(8, ENCIPHERED_SIZE) == Total(BITS_PER_WORD, NUM_WORDS) == 264
  {
    TotalMultiplies(8, ENCIPHERED_SIZE);
    TotalMultiplies(BITS_PER_WORD, NUM_WORDS);
    assert Pow2(4) == 16;
    assert Pow2(8) == 256;
  }

  /** ReverseWordMap, built in init: a word that occurs twice gets its last index. */
  method BuildReverseWordMap(words: seq<string>) returns (rev: map<string, nat>)
    ensures forall w :: w in rev <==> w in words
    ensures forall w :: w in rev ==> rev[w] < |words| && words[rev[w]] == w
    ensures forall w, j :: w in rev && rev[w] < j < |words| ==> words[j] != w
  {
    rev := map[];
    for i := 0 to |words|
      invariant forall w :: w in rev <==> w in words[..i]
      invariant forall w :: w in rev ==> rev[w] < i && words[rev[w]] == w
      invariant forall w, j :: w in rev && rev[w] < j < i ==> words[j] != w
    {
      rev := rev[words[i] := i];
    }
  }

  /** The map is the inverse of the list. */
  ghost predicate Reverses(words: seq<string>, rev: map<string, nat>) {
    && (forall w :: w in rev <==> w in words)
    && (forall w :: w in rev ==> rev[w] < |words| && words[rev[w]] == w)
  }

  lemma ReverseOfWord(words: seq<string>, rev: map<string, nat>, i: nat)
    requires WordList(words) && Reverses(words, rev) && i < |words|
    ensures words[i] in rev && rev[words[i]] == i
  {
    assert words[i] in words;
  }

  /** The word indices of a cipher text. */
  ghost function Indices(cipherText: seq<byte>): (r: seq<nat>)
    requires |cipherText| == ENCIPHERED_SIZE
    ensures |r| == NUM_WORDS && forall i :: 0 <= i < |r| ==> r[i] < 2048
  {
    Sizes();
    RegroupInverse(8, BITS_PER_WORD, cipherText, NUM_WORDS);
    Regroup(8, BITS_PER_WORD, cipherText, NUM_WORDS)
  }

  /** The cipher text that word indices spell. */
  ghost function FromIndices(indices: seq<nat>): (r: seq<byte>)
    requires |indices| == NUM_WORDS && forall i :: 0 <= i < |indices| ==> indices[i] < 2048
    ensures |r| == ENCIPHERED_SIZE
  {
    Sizes();
    RegroupInverse(BITS_PER_WORD, 8, indices, ENCIPHERED_SIZE);
    Regroup(BITS_PER_WORD, 8, indices, ENCIPHERED_SIZE)
  }

  /** Regrouping 33 bytes as 24 indices is a bijection. */
  lemma RegroupBijection(cipherText: seq<byte>, indices: seq<nat>)
    requires |cipherText| == ENCIPHERED_SIZE
    requires |indices| == NUM_WORDS && forall i :: 0 <= i < |indices| ==> indices[i] < 2048
    ensures FromIndices(Indices(cipherText)) == cipherText
    ensures Indices(FromIndices(indices)) == indices
  {
    Sizes();
    RegroupInverse(8, BITS_PER_WORD, cipherText, NUM_WORDS);
    RegroupInverse(BITS_PER_WORD, 8, indices, ENCIPHERED_SIZE);
  }

  /** The indices of a cipher text are the digits, in base 2048, of the number whose digits in base 256 are its bytes. */
  lemma IndicesIff(cipherText: seq<byte>, indices: seq<nat>)
    requires |cipherText| == ENCIPHERED_SIZE
    requires |indices| == NUM_WORDS && forall i :: 0 <= i < |indices| ==> indices[i] < 2048
    ensures indices == Indices(cipherText) <==> Number(2048, indices) == Number(256, cipherText)
  {
    Sizes();
    RegroupNumber(8, BITS_PER_WORD, cipherText, NUM_WORDS);
    if Number(2048, indices) == Number(256, cipherText) { NumberOnce(2048, indices, Indices(cipherText)); }
  }

  /** The words of a cipher text. */
  ghost predicate Spells(words: seq<string>, cipherText: seq<byte>, mnemonic: seq<string>) {
    && |words| == 2048 && |cipherText| == ENCIPHERED_SIZE && |mnemonic| == NUM_WORDS
    && forall i :: 0 <= i < NUM_WORDS ==> mnemonic[i] == words[Indices(cipherText)[i]]
  }

  ghost predicate WordsAt(words: seq<string>, indices: seq<nat>, mnemonic: seq<string>) {
    |mnemonic| == |indices| && forall j :: 0 <= j < |indices| ==> indices[j] < |words| && mnemonic[j] == words[indices[j]]
  }

  /** The loop of cipherTextToMnemonic, for n words of k bits: reading never runs off the stream. */
  method ReadWords(words: seq<string>, k: nat, bits: seq<bool>, n: nat) returns (mnemonic: seq<string>)
    requires |bits| == Total(k, n) && |words| == Pow2(k)
    ensures WordsAt(words, Unpack(k, bits, n), mnemonic)
  {
    var pos := 0;
    ghost var indices: seq<nat> := [];
    mnemonic := [];
    for i := 0 to n
      invariant pos == Total(k, i) <= |bits|
      invariant |indices| == i && indices == Unpack(k, bits[..pos], i) && WordsAt(words, indices, mnemonic)
    {
      TotalMonotone(k, i + 1, n);
      ReadNext(k, bits, pos, i);
      var index := Value(bits[pos..pos + k]);
      pos, indices := pos + k, indices + [index];
      mnemonic := mnemonic + [words[index]];
    }
    assert bits[..pos] == bits;
  }

  lemma ReadNext(k: nat, bits: seq<bool>, pos: nat, i: nat)
    requires pos == Total(k, i) && pos + k <= |bits|
    ensures Value(bits[pos..pos + k]) < Pow2(k)
    ensures Unpack(k, bits[..pos + k], i + 1) == Unpack(k, bits[..pos], i) + [Value(bits[pos..pos + k])]
  {
    BitsValue(bits[pos..pos + k]);
    UnpackAppend(k, bits[..pos], i, bits[pos..pos + k]);
    assert bits[..pos + k] == bits[..pos] + bits[pos..pos + k];
  }

  /** cipherTextToMnemonic. */
  method CipherTextToMnemonic(words: seq<string>, cipherText: seq<byte>) returns (mnemonic: seq<string>)
    requires |words| == 2048 && |cipherText| == ENCIPHERED_SIZE
    ensures Spells(words, cipherText, mnemonic)
    ensures exists indices :: Number(2048, indices) == Number(256, cipherText) && WordsAt(words, indices, mnemonic)
  {
    Sizes();
    IndicesIff(cipherText, Indices(cipherText));
    mnemonic := ReadWords(words, BITS_PER_WORD, Pack(8, cipherText), NUM_WORDS);
  }

  /** Reading a missing entry of the reverse map gives 0. */
  function IndexOf(rev: map<string, nat>, word: string): nat {
    if word in rev then rev[word] else 0
  }

  /** The indices of the words of a mnemonic. */
  ghost function WordIndices(rev: map<string, nat>, mnemonic: seq<string>): (r: seq<nat>)
    ensures |r| == |mnemonic| && forall i :: 0 <= i < |r| ==> r[i] == IndexOf(rev, mnemonic[i])
  {
    seq(|mnemonic|, i requires 0 <= i < |mnemonic| => IndexOf(rev, mnemonic[i]))
  }

  /** The index of every word, where an unknown one counts as 0. */
  ghost predicate IndicesOf(rev: map<string, nat>, mnemonic: seq<string>, indices: seq<nat>) {
    |indices| == |mnemonic|
    && forall i :: 0 <= i < |mnemonic| ==> if mnemonic[i] in rev then indices[i] == rev[mnemonic[i]] else indices[i] == 0
  }

  /** The cipher text that a mnemonic spells. */
  ghost function CipherTextOf(rev: map<string, nat>, mnemonic: seq<string>): (r: seq<byte>)
    requires |mnemonic| == NUM_WORDS && forall w :: w in rev ==> rev[w] < 2048
    ensures |r| == ENCIPHERED_SIZE
  {
    FromIndices(WordIndices(rev, mnemonic))
  }

  lemma CipherTextNumber(rev: map<string, nat>, mnemonic: seq<string>)
    requires |mnemonic| == NUM_WORDS && forall w :: w in rev ==> rev[w] < 2048
    ensures exists indices :: Number(256, CipherTextOf(rev, mnemonic)) == Number(2048, indices)
              && IndicesOf(rev, mnemonic, indices)
  {
    var indices := WordIndices(rev, mnemonic);
    Sizes();
    RegroupNumber(BITS_PER_WORD, 8, indices, ENCIPHERED_SIZE);
    assert IndicesOf(rev, mnemonic, indices);
  }

  /** The loop of mnemonicToCipherText, for words of k bits. */
  method WriteWords(rev: map<string, nat>, k: nat, mnemonic: seq<string>) returns (bits: seq<bool>)
    ensures bits == Pack(k, WordIndices(rev, mnemonic))
  {
    bits := [];
    ghost var indices := WordIndices(rev, mnemonic);
    for i := 0 to |mnemonic|
      invariant bits == Pack(k, indices[..i])
    {
      PackAppend(k, indices[..i], indices[i]);
      assert indices[..i + 1] == indices[..i] + [indices[i]];
      bits := bits + Bits(IndexOf(rev, mnemonic[i]), k);
    }
    assert indices[..|mnemonic|] == indices;
  }

  /** mnemonicToCipherText. */
  method MnemonicToCipherText(rev: map<string, nat>, mnemonic: seq<string>) returns (cipherText: seq<byte>)
    requires |mnemonic| == NUM_WORDS && forall w :: w in rev ==> rev[w] < 2048
    ensures cipherText == CipherTextOf(rev, mnemonic)
    ensures |cipherText| == ENCIPHERED_SIZE
    ensures exists indices :: Number(256, cipherText) == Number(2048, indices) && IndicesOf(rev, mnemonic, indices)
  {
    Sizes();
    CipherTextNumber(rev, mnemonic);
    var bits := WriteWords(rev, BITS_PER_WORD, mnemonic);
    RegroupInverse(BITS_PER_WORD, 8, WordIndices(rev, mnemonic), ENCIPHERED_SIZE);
    cipherText := Unpack(8, bits, ENCIPHERED_SIZE);
  }

  /** Words to bytes undoes bytes to words. */
  lemma SpelledBack(words: seq<string>, rev: map<string, nat>, cipherText: seq<byte>, mnemonic: seq<string>)
    requires WordList(words) && Reverses(words, rev) && Spells(words, cipherText, mnemonic)
    ensures CipherTextOf(rev, mnemonic) == cipherText
    ensures forall i :: 0 <= i < NUM_WORDS ==> mnemonic[i] in words
  {
    var indices := Indices(cipherText);
    forall i | 0 <= i < NUM_WORDS ensures IndexOf(rev, mnemonic[i]) == indices[i] && mnemonic[i] in words {
      ReverseOfWord(words, rev, indices[i]);
    }
    assert WordIndices(rev, mnemonic) == indices;
    RegroupBijection(cipherText, indices);
  }

  /** Bytes to words undoes words to bytes, for known words. */
  lemma SpelledForth(words: seq<string>, rev: map<string, nat>, mnemonic: seq<string>)
    requires WordList(words) && Reverses(words, rev) && |mnemonic| == NUM_WORDS
    requires forall i :: 0 <= i < NUM_WORDS ==> mnemonic[i] in words
    ensures Spells(words, CipherTextOf(rev, mnemonic), mnemonic)
  {
    var indices := WordIndices(rev, mnemonic);
    RegroupBijection(CipherTextOf(rev, mnemonic), indices);
    assert Indices(CipherTextOf(rev, mnemonic)) == indices;
    forall i | 0 <= i < NUM_WORDS ensures mnemonic[i] == words[indices[i]] {
      assert mnemonic[i] in rev;
    }
  }
}
