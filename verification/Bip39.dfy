/** The BIP39 mnemonic codec, on bytes and on strings of '0' and '1'. */
module Bip39 {

  type Byte = n: nat | n < 256
  type Digest = d: seq<Byte> | |d| == 32 witness seq(32, _ => 0)

  datatype Error = NoBits | WordCount | UnknownWord | BadChecksum
  datatype Result<+T> = Ok(value: T) | Err(error: Error)

  // ---------- Binary strings ----------

  function Digit(b: nat): char
    requires b < 2
  {
    if b == 1 then '1' else '0'
  }

  /** n.toString(2) */
  function ToBinary(n: nat): string {
    if n < 2 then [Digit(n)] else ToBinary(n / 2) + [Digit(n % 2)]
  }

  /** parseInt(s, 2) for a string of binary digits */
  function ParseBinary(s: string): nat {
    if s == "" then 0 else 2 * ParseBinary(s[..|s| - 1]) + if s[|s| - 1] == '1' then 1 else 0
  }

  predicate IsBinary(s: string) {
    forall i :: 0 <= i < |s| ==> s[i] == '0' || s[i] == '1'
  }

  function PadLeft(s: string, pad: char, length: nat): string {
    seq(if |s| < length then length - |s| else 0, _ => pad) + s
  }

  method Lpad(str: string, padChar: char, length: nat) returns (r: string)
    ensures r == PadLeft(str, padChar, length)
  {
    r := str;
    while |r| < length
      invariant |str| <= |r| && (|r| <= length || r == str)
      invariant r == seq(|r| - |str|, _ => padChar) + str
    {
      r := [padChar] + r;
    }
  }

  function Padded(n: nat, width: nat): string {
    PadLeft(ToBinary(n), '0', width)
  }

  /** The `width` low binary digits of `n`. */
  function Bits(n: nat, width: nat): (s: string)
    ensures |s| == width && IsBinary(s)
  {
    if width == 0 then "" else Bits(n / 2, width - 1) + [Digit(n % 2)]
  }

  function Pow2(k: nat): (r: nat)
    ensures 1 <= r
  {
    if k == 0 then 1 else 2 * Pow2(k - 1)
  }

  lemma {:induction false} PaddedIsBits(n: nat, width: nat)
    requires 1 <= width && n < Pow2(width)
    ensures Padded(n, width) == Bits(n, width)
  {
    if width == 1 {
      assert Bits(n / 2, 0) == "";
    } else if n < 2 {
      ZeroBits(width - 1);
      assert n / 2 == 0 && n % 2 == n;
    } else {
      PaddedIsBits(n / 2, width - 1);
      BinaryLength(n / 2, width - 1);
      assert Padded(n, width) == Padded(n / 2, width - 1) + [Digit(n % 2)];
    }
  }

  lemma {:induction false} ZeroBits(width: nat)
    ensures Bits(0, width) == seq(width, _ => '0')
  {
    if width > 0 {
      ZeroBits(width - 1);
    }
  }

  lemma {:induction false} BinaryLength(n: nat, width: nat)
    requires 1 <= width && n < Pow2(width)
    ensures 1 <= |ToBinary(n)| <= width
  {
    if n >= 2 {
      BinaryLength(n / 2, width - 1);
    }
  }

  lemma {:induction false} ParseBits(n: nat, width: nat)
    requires n < Pow2(width)
    ensures ParseBinary(Bits(n, width)) == n
  {
    if width > 0 {
      ParseBits(n / 2, width - 1);
      var s := Bits(n, width);
      assert s[..|s| - 1] == Bits(n / 2, width - 1);
    }
  }

  lemma {:induction false} BitsParse(s: string)
    requires IsBinary(s)
    ensures ParseBinary(s) < Pow2(|s|) && Bits(ParseBinary(s), |s|) == s
  {
    if s != "" {
      var front, last := s[..|s| - 1], s[|s| - 1];
      BitsParse(front);
      assert s == front + [last];
    }
  }

  // ---------- Chunks ----------

  /** s.match(/(.{1,k})/g) for a non-empty string without line breaks */
  function Chunks(s: string, k: nat): (chunks: seq<string>)
    requires 1 <= k
    decreases |s|
  {
    if |s| <= k then [s] else [s[..k]] + Chunks(s[k..], k)
  }

  function Concat(parts: seq<string>): string {
    if parts == [] then "" else parts[0] + Concat(parts[1..])
  }

  ghost predicate AllOfLength(parts: seq<string>, k: nat) {
    forall i :: 0 <= i < |parts| ==> |parts[i]| == k
  }

  lemma {:induction false} ChunksOfConcat(parts: seq<string>, k: nat)
    requires 1 <= k && parts != [] && AllOfLength(parts, k)
    ensures Chunks(Concat(parts), k) == parts && |Concat(parts)| == k * |parts|
  {
    if |parts| == 1 {
      assert parts == [parts[0]] && Concat(parts[1..]) == "";
      assert Concat(parts) == parts[0];
    } else {
      ChunksOfConcat(parts[1..], k);
      assert |Concat(parts[1..])| == k * (|parts| - 1) >= k;
      assert Concat(parts)[..k] == parts[0] && Concat(parts)[k..] == Concat(parts[1..]);
    }
  }

  lemma {:induction false} ConcatOfChunks(s: string, k: nat, n: nat)
    requires 1 <= k && 1 <= n && |s| == k * n
    ensures Concat(Chunks(s, k)) == s && AllOfLength(Chunks(s, k), k) && |Chunks(s, k)| == n
    decreases n
  {
    if n == 1 {
      assert Concat([s]) == s + Concat([]);
    } else {
      assert |s| == k * (n - 1) + k && k * (n - 1) >= k;
      ConcatOfChunks(s[k..], k, n - 1);
      assert Chunks(s, k)[1..] == Chunks(s[k..], k);
    }
  }

  lemma {:induction false} ConcatBinary(parts: seq<string>)
    requires forall i :: 0 <= i < |parts| ==> IsBinary(parts[i])
    ensures IsBinary(Concat(parts))
  {
    if parts != [] {
      ConcatBinary(parts[1..]);
    }
  }

  // ---------- Words ----------

  function Join(words: seq<string>): string {
    if words == [] then "" else if |words| == 1 then words[0]
    else words[0] + " " + Join(words[1..])
  }

  function Split(s: string): (words: seq<string>)
    ensures words != []
  {
    if s == "" then [""]
    else
      var rest := Split(s[1..]);
      if s[0] == ' ' then [""] + rest else [[s[0]] + rest[0]] + rest[1..]
  }

  lemma SplitLetter(c: char, s: string)
    requires c != ' '
    ensures Split([c] + s) == [[c] + Split(s)[0]] + Split(s)[1..]
  {
    assert ([c] + s)[1..] == s;
  }

  lemma {:induction false} SplitWord(word: string, s: string)
    requires ' ' !in word
    ensures Split(word + s) == [word + Split(s)[0]] + Split(s)[1..]
  {
    if word == "" {
      assert word + s == s && word + Split(s)[0] == Split(s)[0];
    } else {
      SplitWord(word[1..], s);
      SplitLetter(word[0], word[1..] + s);
      hide Split;
      assert word + s == [word[0]] + (word[1..] + s);
      assert [word[0]] + (word[1..] + Split(s)[0]) == word + Split(s)[0];
    }
  }

  lemma {:induction false} SplitJoin(words: seq<string>)
    requires words != [] && forall i :: 0 <= i < |words| ==> ' ' !in words[i]
    ensures Split(Join(words)) == words
  {
    if |words| == 1 {
      SplitWord(words[0], "");
      assert words[0] + "" == words[0];
    } else {
      var rest := " " + Join(words[1..]);
      SplitJoin(words[1..]);
      SplitWord(words[0], rest);
      assert rest[1..] == Join(words[1..]);
      assert Split(rest) == [""] + words[1..];
      assert words[0] + " " + Join(words[1..]) == words[0] + rest;
      assert words[0] + "" == words[0] && words == [words[0]] + words[1..];
    }
  }

  lemma {:induction false} JoinSplit(s: string)
    ensures Join(Split(s)) == s
  {
    if s != "" {
      JoinSplit(s[1..]);
      var rest := Split(s[1..]);
      if s[0] == ' ' {
        assert ([""] + rest)[1..] == rest;
        assert s == [' '] + s[1..];
      } else {
        var words := [[s[0]] + rest[0]] + rest[1..];
        assert words[1..] == rest[1..];
        assert s == [s[0]] + s[1..];
      }
    }
  }

  /** wordlist.indexOf(word), the first position */
  function IndexOf(wordlist: seq<string>, word: string): (i: int)
    ensures -1 <= i < |wordlist| && (i >= 0 ==> wordlist[i] == word)
    ensures i < 0 <==> word !in wordlist
  {
    if wordlist == [] then -1
    else if wordlist[0] == word then 0
    else
      var i := IndexOf(wordlist[1..], word);
      assert word in wordlist <==> word in wordlist[1..];
      if i < 0 then -1 else i + 1
  }

  ghost predicate DistinctWords(wordlist: seq<string>) {
    forall i, j :: 0 <= i < j < |wordlist| ==> wordlist[i] != wordlist[j]
  }

  lemma IndexOfWord(wordlist: seq<string>, i: nat)
    requires DistinctWords(wordlist) && i < |wordlist|
    ensures IndexOf(wordlist, wordlist[i]) == i
  {
    var j := IndexOf(wordlist, wordlist[i]);
    assert wordlist[i] in wordlist && wordlist[j] == wordlist[i];
  }

  // ---------- The codec ----------

  function BytesToBinary(bytes: seq<Byte>): string {
    Concat(seq(|bytes|, i requires 0 <= i < |bytes| => Padded(bytes[i], 8)))
  }

  function ChecksumBits(sha256: seq<Byte> -> Digest, entropy: seq<Byte>): string {
    var cs := |entropy| * 8 / 32;
    var digits := BytesToBinary(sha256(entropy));
    if cs <= |digits| then digits[..cs] else digits
  }

  /** wordlist[index]; Array.join writes an undefined entry as the empty string */
  function WordAt(wordlist: seq<string>, index: nat): string {
    if index < |wordlist| then wordlist[index] else ""
  }

  function Words(wordlist: seq<string>, chunks: seq<string>): (words: seq<string>)
    ensures |words| == |chunks|
  {
    seq(|chunks|, i requires 0 <= i < |chunks| => WordAt(wordlist, ParseBinary(chunks[i])))
  }

  function EntropyToMnemonic(sha256: seq<Byte> -> Digest, wordlist: seq<string>, entropy: seq<Byte>): Result<string> {
    var bits := BytesToBinary(entropy) + ChecksumBits(sha256, entropy);
    if bits == "" then Err(NoBits) else Ok(Join(Words(wordlist, Chunks(bits, 11))))
  }

  function WordBits(wordlist: seq<string>, words: seq<string>): (chunks: seq<string>)
    requires forall w :: w in words ==> w in wordlist
    ensures |chunks| == |words|
  {
    seq(|words|, i requires 0 <= i < |words| => Padded(IndexOf(wordlist, words[i]), 11))
  }

  function BytesOf(bits: string): seq<Byte> {
    var chunks := Chunks(bits, 8);
    seq(|chunks|, i requires 0 <= i < |chunks| => ParseBinary(chunks[i]) % 256)
  }

  function MnemonicToEntropy(sha256: seq<Byte> -> Digest, wordlist: seq<string>, mnemonic: string): Result<seq<Byte>> {
    var words := Split(mnemonic);
    if |words| % 3 != 0 then Err(WordCount)
    else if exists w :: w in words && w !in wordlist then Err(UnknownWord)
    else
      var bits := Concat(WordBits(wordlist, words));
      var divider := |bits| / 33 * 32;
      var entropy := BytesOf(bits[..divider]);
      if ChecksumBits(sha256, entropy) != bits[divider..] then Err(BadChecksum) else Ok(entropy)
  }

  // ---------- Bytes and words as bits ----------

  lemma ByteBits()
    ensures Pow2(8) == 256 && Pow2(11) == 2048
  {
    assert Pow2(4) == 16;
    assert Pow2(8) == 256;
  }

  function BytePart(bytes: seq<Byte>): (parts: seq<string>)
    ensures |parts| == |bytes|
  {
    seq(|bytes|, i requires 0 <= i < |bytes| => Padded(bytes[i], 8))
  }

  lemma BytePartShape(bytes: seq<Byte>)
    ensures AllOfLength(BytePart(bytes), 8)
    ensures forall i :: 0 <= i < |bytes| ==> IsBinary(BytePart(bytes)[i]) && ParseBinary(BytePart(bytes)[i]) == bytes[i]
  {
    forall i | 0 <= i < |bytes|
      ensures |BytePart(bytes)[i]| == 8 && IsBinary(BytePart(bytes)[i]) && ParseBinary(BytePart(bytes)[i]) == bytes[i]
    {
      ByteBits();
      PaddedIsBits(bytes[i], 8);
      ParseBits(bytes[i], 8);
    }
  }

  /** Bytes survive being written as bits. */
  lemma BytesRoundTrip(bytes: seq<Byte>)
    requires bytes != []
    ensures BytesOf(BytesToBinary(bytes)) == bytes
    ensures |BytesToBinary(bytes)| == 8 * |bytes| && IsBinary(BytesToBinary(bytes))
  {
    hide Chunks, Concat, ParseBinary, Padded, IsBinary, BytesToBinary;
    BytePartShape(bytes);
    ChunksOfConcat(BytePart(bytes), 8);
    ConcatBinary(BytePart(bytes));
    BytesToBinaryParts(bytes);
  }

  lemma BinaryLengthOfBytes(bytes: seq<Byte>)
    ensures |BytesToBinary(bytes)| == 8 * |bytes| && IsBinary(BytesToBinary(bytes))
  {
    if bytes != [] {
      BytesRoundTrip(bytes);
    }
  }

  lemma ChunkAsByte(chunk: string)
    requires |chunk| == 8 && IsBinary(chunk)
    ensures ParseBinary(chunk) < 256 && Padded(ParseBinary(chunk), 8) == chunk
  {
    ByteBits();
    BitsParse(chunk);
    PaddedIsBits(ParseBinary(chunk), 8);
  }

  /** Whole bytes of bits survive being read as bytes. */
  lemma BitsRoundTrip(bits: string, n: nat)
    requires 1 <= n && |bits| == 8 * n && IsBinary(bits)
    ensures BytesToBinary(BytesOf(bits)) == bits && |BytesOf(bits)| == n
  {
    hide Chunks, Concat, ParseBinary, Padded, IsBinary, BytesToBinary;
    var chunks := Chunks(bits, 8);
    ConcatOfChunks(bits, 8, n);
    ChunksBinary(bits, 8);
    forall i | 0 <= i < |chunks| ensures Padded(BytesOf(bits)[i], 8) == chunks[i] {
      ChunkAsByte(chunks[i]);
    }
    assert BytePart(BytesOf(bits)) == chunks;
    BytesToBinaryParts(BytesOf(bits));
  }

  lemma BytesToBinaryParts(bytes: seq<Byte>)
    ensures BytesToBinary(bytes) == Concat(BytePart(bytes))
  {
  }

  lemma {:induction false} ChunksBinary(s: string, k: nat)
    requires 1 <= k && IsBinary(s)
    ensures forall i :: 0 <= i < |Chunks(s, k)| ==> IsBinary(Chunks(s, k)[i])
    decreases |s|
  {
    if |s| > k {
      ChunksBinary(s[k..], k);
    }
  }

  // ---------- Round trips ----------

  lemma ChecksumLength(sha256: seq<Byte> -> Digest, entropy: seq<Byte>)
    ensures |ChecksumBits(sha256, entropy)| == if |entropy| / 4 <= 256 then |entropy| / 4 else 256
    ensures IsBinary(ChecksumBits(sha256, entropy))
  {
    BinaryLengthOfBytes(sha256(entropy));
  }

  /** Eleven-bit chunks survive being written as words. */
  lemma ChunksAsWords(wordlist: seq<string>, chunks: seq<string>)
    requires |wordlist| == 2048 && DistinctWords(wordlist)
    requires AllOfLength(chunks, 11) && forall i :: 0 <= i < |chunks| ==> IsBinary(chunks[i])
    ensures forall w :: w in Words(wordlist, chunks) ==> w in wordlist
    ensures WordBits(wordlist, Words(wordlist, chunks)) == chunks
  {
    var words := Words(wordlist, chunks);
    forall i | 0 <= i < |chunks|
      ensures words[i] in wordlist && Padded(IndexOf(wordlist, words[i]), 11) == chunks[i]
    {
      ByteBits();
      BitsParse(chunks[i]);
      var index := ParseBinary(chunks[i]);
      IndexOfWord(wordlist, index);
      PaddedIsBits(index, 11);
    }
  }

  /** Words of the list survive being written as eleven-bit chunks. */
  lemma WordsAsChunks(wordlist: seq<string>, words: seq<string>)
    requires |wordlist| <= 2048 && forall w :: w in words ==> w in wordlist
    ensures Words(wordlist, WordBits(wordlist, words)) == words
    ensures AllOfLength(WordBits(wordlist, words), 11)
    ensures forall i :: 0 <= i < |words| ==> IsBinary(WordBits(wordlist, words)[i])
  {
    var chunks := WordBits(wordlist, words);
    forall i | 0 <= i < |words|
      ensures |chunks[i]| == 11 && IsBinary(chunks[i]) && WordAt(wordlist, ParseBinary(chunks[i])) == words[i]
    {
      assert words[i] in words;
      var index := IndexOf(wordlist, words[i]);
      ByteBits();
      PaddedIsBits(index, 11);
      ParseBits(index, 11);
    }
  }

  lemma SpaceFree(wordlist: seq<string>, words: seq<string>)
    requires forall w :: w in wordlist ==> ' ' !in w
    requires forall w :: w in words ==> w in wordlist
    ensures forall i :: 0 <= i < |words| ==> ' ' !in words[i]
  {
    assert forall i :: 0 <= i < |words| ==> words[i] in words;
  }

  /** What encoding a whole number of 32-bit groups produces. */
  lemma EncodedShape(sha256: seq<Byte> -> Digest, wordlist: seq<string>, entropy: seq<Byte>, k: nat)
    returns (bits: string, chunks: seq<string>)
    requires |wordlist| == 2048 && DistinctWords(wordlist) && forall w :: w in wordlist ==> ' ' !in w
    requires |entropy| == 4 * k && 1 <= k <= 256
    ensures bits == BytesToBinary(entropy) + ChecksumBits(sha256, entropy) && |bits| == 33 * k
    ensures |chunks| == 3 * k && Concat(chunks) == bits
    ensures var words := Words(wordlist, chunks);
      && EntropyToMnemonic(sha256, wordlist, entropy) == Ok(Join(words))
      && Split(Join(words)) == words
      && (forall w :: w in words ==> w in wordlist)
      && WordBits(wordlist, words) == chunks
  {
    bits := BytesToBinary(entropy) + ChecksumBits(sha256, entropy);
    BinaryLengthOfBytes(entropy);
    ChecksumLength(sha256, entropy);
    chunks := Chunks(bits, 11);
    ConcatOfChunks(bits, 11, 3 * k);
    ChunksBinary(bits, 11);
    ChunksAsWords(wordlist, chunks);
    SpaceFree(wordlist, Words(wordlist, chunks));
    SplitJoin(Words(wordlist, chunks));
  }

  /** What decoding does with words of the list. */
  lemma DecodeWords(sha256: seq<Byte> -> Digest, wordlist: seq<string>, mnemonic: string, bits: string, k: nat)
    requires |Split(mnemonic)| == 3 * k && forall w :: w in Split(mnemonic) ==> w in wordlist
    requires bits == Concat(WordBits(wordlist, Split(mnemonic))) && |bits| == 33 * k
    ensures MnemonicToEntropy(sha256, wordlist, mnemonic) ==
            var entropy := BytesOf(bits[..32 * k]);
            if ChecksumBits(sha256, entropy) != bits[32 * k..] then Err(BadChecksum) else Ok(entropy)
  {
    hide Chunks, Concat, ChecksumBits, BytesOf, Split, WordBits;
    assert |bits| / 33 * 32 == 32 * k;
  }

  /** Decoding undoes encoding exactly for entropy of 1 to 256 groups of 32 bits. */
  lemma DecodeEncode(sha256: seq<Byte> -> Digest, wordlist: seq<string>, entropy: seq<Byte>)
    requires |wordlist| == 2048 && DistinctWords(wordlist) && forall w :: w in wordlist ==> ' ' !in w
    ensures (EntropyToMnemonic(sha256, wordlist, entropy).Ok? &&
             MnemonicToEntropy(sha256, wordlist, EntropyToMnemonic(sha256, wordlist, entropy).value) == Ok(entropy))
            <==> |entropy| % 4 == 0 && 4 <= |entropy| <= 1024
  {
    hide EntropyToMnemonic, MnemonicToEntropy, ChecksumBits, BytesOf, BytesToBinary, Split, Join, Words, WordBits,
      Concat, DistinctWords, IsBinary;
    if |entropy| % 4 == 0 && 4 <= |entropy| <= 1024 {
      var k := |entropy| / 4;
      var bits, chunks := EncodedShape(sha256, wordlist, entropy, k);
      BytesRoundTrip(entropy);
      DecodeWords(sha256, wordlist, Join(Words(wordlist, chunks)), bits, k);
      assert bits[..32 * k] == BytesToBinary(entropy) && bits[32 * k..] == ChecksumBits(sha256, entropy);
    } else if EntropyToMnemonic(sha256, wordlist, entropy).Ok? {
      var mnemonic := EntropyToMnemonic(sha256, wordlist, entropy).value;
      if MnemonicToEntropy(sha256, wordlist, mnemonic).Ok? {
        var k := DecodedShape(sha256, wordlist, mnemonic);
      }
    }
  }

  lemma AcceptedWords(sha256: seq<Byte> -> Digest, wordlist: seq<string>, mnemonic: string)
    requires MnemonicToEntropy(sha256, wordlist, mnemonic).Ok?
    ensures |Split(mnemonic)| % 3 == 0 && forall w :: w in Split(mnemonic) ==> w in wordlist
  {
  }

  lemma WordBitsShape(wordlist: seq<string>, words: seq<string>, k: nat)
    requires |wordlist| <= 2048 && forall w :: w in words ==> w in wordlist
    requires |words| == 3 * k && 1 <= k
    ensures |Concat(WordBits(wordlist, words))| == 33 * k && IsBinary(Concat(WordBits(wordlist, words)))
  {
    WordsAsChunks(wordlist, words);
    hide WordBits, Concat, Chunks, IsBinary;
    ChunksOfConcat(WordBits(wordlist, words), 11);
    ConcatBinary(WordBits(wordlist, words));
  }

  /** What an accepted mnemonic looks like. */
  lemma DecodedShape(sha256: seq<Byte> -> Digest, wordlist: seq<string>, mnemonic: string) returns (k: nat)
    requires |wordlist| <= 2048 && MnemonicToEntropy(sha256, wordlist, mnemonic).Ok?
    ensures 1 <= k <= 256
    ensures var words, entropy := Split(mnemonic), MnemonicToEntropy(sha256, wordlist, mnemonic).value;
      && |words| == 3 * k && |entropy| == 4 * k
      && (forall w :: w in words ==> w in wordlist)
      && BytesToBinary(entropy) + ChecksumBits(sha256, entropy) == Concat(WordBits(wordlist, words))
      && |Concat(WordBits(wordlist, words))| == 33 * k
  {
    AcceptedWords(sha256, wordlist, mnemonic);
    hide *;
    var words := Split(mnemonic);
    k := |words| / 3;
    var bits := Concat(WordBits(wordlist, words));
    WordBitsShape(wordlist, words, k);
    DecodeWords(sha256, wordlist, mnemonic, bits, k);
    BinaryFront(bits, 32 * k);
    BitsRoundTrip(bits[..32 * k], 4 * k);
    ChecksumLength(sha256, BytesOf(bits[..32 * k]));
  }

  lemma BinaryFront(s: string, n: nat)
    requires IsBinary(s) && n <= |s|
    ensures IsBinary(s[..n]) && s[..n] + s[n..] == s
  {
  }

  lemma EncodeBits(sha256: seq<Byte> -> Digest, wordlist: seq<string>, entropy: seq<Byte>)
    ensures var bits := BytesToBinary(entropy) + ChecksumBits(sha256, entropy);
      bits != "" ==> EntropyToMnemonic(sha256, wordlist, entropy) == Ok(Join(Words(wordlist, Chunks(bits, 11))))
  {
  }

  /** Re-encoding the result of any accepted mnemonic gives that mnemonic back. */
  lemma EncodeDecode(sha256: seq<Byte> -> Digest, wordlist: seq<string>, mnemonic: string)
    requires |wordlist| <= 2048 && MnemonicToEntropy(sha256, wordlist, mnemonic).Ok?
    ensures EntropyToMnemonic(sha256, wordlist, MnemonicToEntropy(sha256, wordlist, mnemonic).value) == Ok(mnemonic)
  {
    hide MnemonicToEntropy, EntropyToMnemonic, ChecksumBits, BytesOf, BytesToBinary, Split, Concat, Chunks, IsBinary,
      Words, WordBits, Join;
    var k := DecodedShape(sha256, wordlist, mnemonic);
    var words := Split(mnemonic);
    EncodeBits(sha256, wordlist, MnemonicToEntropy(sha256, wordlist, mnemonic).value);
    WordsAsChunks(wordlist, words);
    ChunksOfConcat(WordBits(wordlist, words), 11);
    JoinSplit(mnemonic);
  }

  // ---------- Bit by bit ----------

  lemma TimesAtLeast(x: nat, p: nat)
    requires 1 <= x
    ensures p <= x * p
  {
    assert x * p == p + (x - 1) * p;
  }

  lemma QuotientIs(n: nat, p: nat, q: nat, r: nat)
    requires 1 <= p && n == q * p + r && r < p
    ensures n / p == q
  {
    var d, m := n / p, n % p;
    assert n == d * p + m;
    if d < q {
      assert (q - d) * p == m - r;
      TimesAtLeast(q - d, p);
    } else if d > q {
      assert (d - q) * p == r - m;
      TimesAtLeast(d - q, p);
    }
  }

  lemma HalfOfQuotient(n: nat, p: nat)
    requires 1 <= p
    ensures n / 2 / p == n / (2 * p)
  {
    var q, r := n / 2 / p, n / 2 % p;
    assert n / 2 == q * p + r;
    assert n == q * (2 * p) + (2 * r + n % 2);
    QuotientIs(n, 2 * p, q, 2 * r + n % 2);
  }

  lemma {:induction false} BitAt(n: nat, width: nat, j: nat)
    requires j < width
    ensures Bits(n, width)[j] == Digit(n / Pow2(width - 1 - j) % 2)
  {
    if j < width - 1 {
      BitAt(n / 2, width - 1, j);
      HalfOfQuotient(n, Pow2(width - 2 - j));
    }
  }

  lemma {:induction false} ConcatAt(parts: seq<string>, k: nat, j: nat, m: nat)
    requires AllOfLength(parts, k) && j < |parts| && m < k
    ensures k * j + m < |Concat(parts)| && Concat(parts)[k * j + m] == parts[j][m]
  {
    if j > 0 {
      ConcatAt(parts[1..], k, j - 1, m);
      assert k * j + m == k + (k * (j - 1) + m);
    }
  }

  lemma {:induction false} ConcatLength(parts: seq<string>, k: nat)
    requires AllOfLength(parts, k)
    ensures |Concat(parts)| == k * |parts|
  {
    if parts != [] {
      ConcatLength(parts[1..], k);
    }
  }

  /** The bits of a byte come most significant first. */
  lemma ByteBit(bytes: seq<Byte>, i: nat)
    requires i < 8 * |bytes|
    ensures |BytesToBinary(bytes)| == 8 * |bytes|
    ensures BytesToBinary(bytes)[i] == Digit(bytes[i / 8] / Pow2(7 - i % 8) % 2)
  {
    BytePartShape(bytes);
    ConcatLength(BytePart(bytes), 8);
    ConcatAt(BytePart(bytes), 8, i / 8, i % 8);
    BytesToBinaryParts(bytes);
    ByteBits();
    PaddedIsBits(bytes[i / 8], 8);
    hide BytesToBinary, Concat, Padded, Bits, Pow2, IsBinary, ParseBinary, AllOfLength;
    BitAt(bytes[i / 8], 8, i % 8);
  }

  lemma WordPart(wordlist: seq<string>, words: seq<string>, j: nat)
    requires |wordlist| <= 2048 && (forall w :: w in words ==> w in wordlist) && j < |words|
    ensures 0 <= IndexOf(wordlist, words[j]) < 2048
    ensures WordBits(wordlist, words)[j] == Bits(IndexOf(wordlist, words[j]), 11)
  {
    assert words[j] in words;
    ByteBits();
    PaddedIsBits(IndexOf(wordlist, words[j]), 11);
  }

  /** The bits of a word are those of its index in the list. */
  lemma WordBit(wordlist: seq<string>, words: seq<string>, i: nat)
    requires |wordlist| <= 2048 && (forall w :: w in words ==> w in wordlist) && i < 11 * |words|
    ensures |Concat(WordBits(wordlist, words))| == 11 * |words| && 0 <= IndexOf(wordlist, words[i / 11])
    ensures Concat(WordBits(wordlist, words))[i] == Digit(IndexOf(wordlist, words[i / 11]) / Pow2(10 - i % 11) % 2)
  {
    WordsAsChunks(wordlist, words);
    hide *;
    ConcatLength(WordBits(wordlist, words), 11);
    ConcatAt(WordBits(wordlist, words), 11, i / 11, i % 11);
    WordPart(wordlist, words, i / 11);
    BitAt(IndexOf(wordlist, words[i / 11]), 11, i % 11);
  }

  /** The word indices, eleven bits each, are the entropy followed by the first bits of its digest. */
  ghost predicate IndexBits(sha256: seq<Byte> -> Digest, wordlist: seq<string>, words: seq<string>, entropy: seq<Byte>,
                            k: nat)
  {
    && |words| == 3 * k && |entropy| == 4 * k && k <= 256
    && (forall w :: w in words ==> w in wordlist)
    && (forall i :: 0 <= i < 32 * k ==>
          IndexOf(wordlist, words[i / 11]) / Pow2(10 - i % 11) % 2 == entropy[i / 8] / Pow2(7 - i % 8) % 2)
    && (forall i :: 0 <= i < k ==>
          IndexOf(wordlist, words[(32 * k + i) / 11]) / Pow2(10 - (32 * k + i) % 11) % 2 ==
          sha256(entropy)[i / 8] / Pow2(7 - i % 8) % 2)
  }

  lemma SameDigit(a: nat, b: nat)
    requires a < 2 && b < 2 && Digit(a) == Digit(b)
    ensures a == b
  {
  }

  lemma EntropyBit(sha256: seq<Byte> -> Digest, wordlist: seq<string>, words: seq<string>, entropy: seq<Byte>, k: nat,
                   i: nat)
    requires |wordlist| <= 2048 && |words| == 3 * k && |entropy| == 4 * k && i < 32 * k
    requires forall w :: w in words ==> w in wordlist
    requires BytesToBinary(entropy) + ChecksumBits(sha256, entropy) == Concat(WordBits(wordlist, words))
    ensures IndexOf(wordlist, words[i / 11]) / Pow2(10 - i % 11) % 2 == entropy[i / 8] / Pow2(7 - i % 8) % 2
  {
    hide *;
    WordBit(wordlist, words, i);
    ByteBit(entropy, i);
    SameDigit(IndexOf(wordlist, words[i / 11]) / Pow2(10 - i % 11) % 2, entropy[i / 8] / Pow2(7 - i % 8) % 2);
  }

  lemma ChecksumIs(sha256: seq<Byte> -> Digest, entropy: seq<Byte>, k: nat)
    requires |entropy| == 4 * k && k <= 256
    ensures |BytesToBinary(sha256(entropy))| == 256 && |BytesToBinary(entropy)| == 32 * k
    ensures ChecksumBits(sha256, entropy) == BytesToBinary(sha256(entropy))[..k]
  {
    BinaryLengthOfBytes(entropy);
    BinaryLengthOfBytes(sha256(entropy));
  }

  lemma DigestBit(sha256: seq<Byte> -> Digest, wordlist: seq<string>, words: seq<string>, entropy: seq<Byte>, k: nat,
                  i: nat)
    requires |wordlist| <= 2048 && |words| == 3 * k && |entropy| == 4 * k && i < k <= 256
    requires forall w :: w in words ==> w in wordlist
    requires BytesToBinary(entropy) + ChecksumBits(sha256, entropy) == Concat(WordBits(wordlist, words))
    ensures IndexOf(wordlist, words[(32 * k + i) / 11]) / Pow2(10 - (32 * k + i) % 11) % 2 ==
            sha256(entropy)[i / 8] / Pow2(7 - i % 8) % 2
  {
    hide *;
    WordBit(wordlist, words, 32 * k + i);
    ByteBit(sha256(entropy), i);
    ChecksumIs(sha256, entropy, k);
    SameDigit(IndexOf(wordlist, words[(32 * k + i) / 11]) / Pow2(10 - (32 * k + i) % 11) % 2,
              sha256(entropy)[i / 8] / Pow2(7 - i % 8) % 2);
  }

  lemma BitsAgree(sha256: seq<Byte> -> Digest, wordlist: seq<string>, words: seq<string>, entropy: seq<Byte>, k: nat)
    requires |wordlist| <= 2048 && |words| == 3 * k && |entropy| == 4 * k && 1 <= k <= 256
    requires forall w :: w in words ==> w in wordlist
    requires BytesToBinary(entropy) + ChecksumBits(sha256, entropy) == Concat(WordBits(wordlist, words))
    ensures IndexBits(sha256, wordlist, words, entropy, k)
  {
    hide Concat, WordBits, BytesToBinary, ChecksumBits, Pow2, IndexOf;
    forall i | 0 <= i < 32 * k
      ensures IndexOf(wordlist, words[i / 11]) / Pow2(10 - i % 11) % 2 == entropy[i / 8] / Pow2(7 - i % 8) % 2
    {
      EntropyBit(sha256, wordlist, words, entropy, k, i);
    }
    forall i | 0 <= i < k
      ensures IndexOf(wordlist, words[(32 * k + i) / 11]) / Pow2(10 - (32 * k + i) % 11) % 2 ==
              sha256(entropy)[i / 8] / Pow2(7 - i % 8) % 2
    {
      DigestBit(sha256, wordlist, words, entropy, k, i);
    }
  }

  /** An encoded mnemonic, bit by bit. */
  lemma EncodedBits(sha256: seq<Byte> -> Digest, wordlist: seq<string>, entropy: seq<Byte>, k: nat)
    requires |wordlist| == 2048 && DistinctWords(wordlist) && forall w :: w in wordlist ==> ' ' !in w
    requires |entropy| == 4 * k && 1 <= k <= 256
    ensures EntropyToMnemonic(sha256, wordlist, entropy).Ok?
    ensures IndexBits(sha256, wordlist, Split(EntropyToMnemonic(sha256, wordlist, entropy).value), entropy, k)
  {
    var bits, chunks := EncodedShape(sha256, wordlist, entropy, k);
    hide EntropyToMnemonic, ChecksumBits, BytesToBinary, Split, Join, Words, WordBits, Concat, DistinctWords, IndexBits;
    BitsAgree(sha256, wordlist, Words(wordlist, chunks), entropy, k);
  }

  /** An accepted mnemonic, bit by bit. */
  lemma DecodedBits(sha256: seq<Byte> -> Digest, wordlist: seq<string>, mnemonic: string) returns (k: nat)
    requires |wordlist| <= 2048 && MnemonicToEntropy(sha256, wordlist, mnemonic).Ok?
    ensures 1 <= k <= 256
    ensures IndexBits(sha256, wordlist, Split(mnemonic), MnemonicToEntropy(sha256, wordlist, mnemonic).value, k)
  {
    hide *;
    k := DecodedShape(sha256, wordlist, mnemonic);
    BitsAgree(sha256, wordlist, Split(mnemonic), MnemonicToEntropy(sha256, wordlist, mnemonic).value, k);
  }
}
