/** Which addresses the browser worker may reach (apps/worker/src/network.ts). */
module Network {
  import opened Runs

  // ------------------------------------------------------------------ IPv4

  function Public4(a: nat, b: nat, c: nat): bool {
    !(|| a == 0 || a == 10 || a == 127 || a >= 224
      || (a == 100 && 64 <= b <= 127)
      || (a == 169 && b == 254)
      || (a == 172 && 16 <= b <= 31)
      || (a == 192 && (b == 168 || (b == 0 && (c == 0 || c == 2)) || (b == 88 && c == 99)))
      || (a == 198 && (b == 18 || b == 19 || (b == 51 && c == 100)))
      || (a == 203 && b == 0 && c == 113))
  }

  /** A block of addresses: all that agree with `base` above its `size`, a power of two. */
  datatype Block = Block(base: nat, size: nat)

  predicate Within(address: nat, block: Block)
    requires block.size > 0
  {
    address / block.size == block.base / block.size
  }

  function Address4(a: nat, b: nat, c: nat, d: nat): nat { a * 0x100_0000 + b * 0x1_0000 + c * 0x100 + d }

  /** 0/8, 10/8, 127/8, 224/3, 100.64/10, 169.254/16, 172.16/12, 192.168/16, 192.0.0/24, 192.0.2/24,
      192.88.99/24, 198.18/15, 198.51.100/24 and 203.0.113/24. */
  const RESERVED4: seq<Block> := [
    Block(0, 0x100_0000), Block(Address4(10, 0, 0, 0), 0x100_0000), Block(Address4(127, 0, 0, 0), 0x100_0000),
    Block(Address4(224, 0, 0, 0), 0x2000_0000),
    Block(Address4(100, 64, 0, 0), 0x40_0000), Block(Address4(169, 254, 0, 0), 0x1_0000),
    Block(Address4(172, 16, 0, 0), 0x10_0000), Block(Address4(192, 168, 0, 0), 0x1_0000),
    Block(Address4(192, 0, 0, 0), 0x100), Block(Address4(192, 0, 2, 0), 0x100), Block(Address4(192, 88, 99, 0), 0x100),
    Block(Address4(198, 18, 0, 0), 0x2_0000), Block(Address4(198, 51, 100, 0), 0x100), Block(Address4(203, 0, 113, 0), 0x100)]

  lemma Prefixes4(a: nat, b: nat, c: nat, d: nat)
    requires a < 256 && b < 256 && c < 256 && d < 256
    ensures var x := Address4(a, b, c, d);
            && x / 0x100_0000 == a && x / 0x1_0000 == a * 0x100 + b && x / 0x100 == a * 0x1_0000 + b * 0x100 + c
            && x / 0x2000_0000 == a / 32 && x / 0x40_0000 == a * 4 + b / 64
            && x / 0x10_0000 == a * 16 + b / 16 && x / 0x2_0000 == a * 128 + b / 2
  {
  }

  lemma WideBlocks(a: nat, b: nat, c: nat, d: nat)
    requires a < 256 && b < 256 && c < 256 && d < 256
    ensures |RESERVED4| == 14
    ensures var x := Address4(a, b, c, d);
            && (Within(x, RESERVED4[0]) <==> a == 0)
            && (Within(x, RESERVED4[1]) <==> a == 10)
            && (Within(x, RESERVED4[2]) <==> a == 127)
            && (Within(x, RESERVED4[3]) <==> a >= 224)
            && (Within(x, RESERVED4[4]) <==> a == 100 && 64 <= b <= 127)
            && (Within(x, RESERVED4[5]) <==> a == 169 && b == 254)
            && (Within(x, RESERVED4[6]) <==> a == 172 && 16 <= b <= 31)
  {
    Prefixes4(a, b, c, d);
  }

  lemma NarrowBlocks(a: nat, b: nat, c: nat, d: nat)
    requires a < 256 && b < 256 && c < 256 && d < 256
    ensures |RESERVED4| == 14
    ensures var x := Address4(a, b, c, d);
            && (Within(x, RESERVED4[7]) <==> a == 192 && b == 168)
            && (Within(x, RESERVED4[8]) <==> a == 192 && b == 0 && c == 0)
            && (Within(x, RESERVED4[9]) <==> a == 192 && b == 0 && c == 2)
            && (Within(x, RESERVED4[10]) <==> a == 192 && b == 88 && c == 99)
            && (Within(x, RESERVED4[11]) <==> a == 198 && 18 <= b <= 19)
            && (Within(x, RESERVED4[12]) <==> a == 198 && b == 51 && c == 100)
            && (Within(x, RESERVED4[13]) <==> a == 203 && b == 0 && c == 113)
  {
    Prefixes4(a, b, c, d);
  }

  /** On every 32-bit address the verdict is the complement of the reserved blocks. */
  lemma Public4IsOutsideReserved(a: nat, b: nat, c: nat, d: nat)
    requires a < 256 && b < 256 && c < 256 && d < 256
    ensures Public4(a, b, c) <==>
              (forall i :: 0 <= i < |RESERVED4| ==> RESERVED4[i].size > 0 && !Within(Address4(a, b, c, d), RESERVED4[i]))
  {
    WideBlocks(a, b, c, d);
    NarrowBlocks(a, b, c, d);
  }

  // ------------------------------------------------------------------ IPv6, on words

  function Public6Words(first: nat, second: nat): bool {
    && 0x2000 <= first <= 0x3fff
    && !(first == 0x2001 && (second < 0x200 || second == 0xdb8))
    && first != 0x2002
    && !(first == 0x3fff && second < 0x1000)
    && !(first == 0x2001 && 0x0020 <= second <= 0x002f)
    && !(first == 0x2001 && 0x0030 <= second <= 0x003f)
  }

  const P96: nat := 0x1_0000_0000_0000_0000_0000_0000

  /** 2000::/3 is global unicast; 2001::/23, 2001:db8::/32, 2002::/16 and 3fff::/20 are carved out of it. */
  const GLOBAL: Block := Block(0x2000_0000 * P96, 0x2000_0000 * P96)
  const CARVED: seq<Block> := [
    Block(0x2001_0000 * P96, 0x200 * P96), Block(0x2001_0db8 * P96, P96), Block(0x2002_0000 * P96, 0x1_0000 * P96),
    Block(0x3fff_0000 * P96, 0x1000 * P96)]

  lemma BigMultiple(k: int, d: int)
    requires d > 0 && k != 0
    ensures k * d >= d || k * d <= -d
  {
    if k > 0 { assert (k - 1) * d >= 0; } else { assert (-k - 1) * d >= 0; }
  }

  lemma UniqueQuotient(x: nat, d: nat, q: nat, r: nat)
    requires d > 0 && r < d && x == q * d + r
    ensures x / d == q
  {
    var k := x / d - q;
    assert k * d == r - x % d;
    if k != 0 { BigMultiple(k, d); }
  }

  lemma Rearrange(a: nat, b: nat, m: nat, n: nat)
    ensures (a * n + b) * m == a * (n * m) + b * m
  {
    assert (a * n + b) * m == (a * n) * m + b * m;
    assert (a * n) * m == a * (n * m);
  }

  lemma RemainderFits(b: nat, r: nat, m: nat, n: nat)
    requires b < n && r < m
    ensures b * m + r < n * m
  {
    assert (b + 1) * m <= n * m;
  }

  lemma DivideTwice(x: nat, m: nat, n: nat)
    requires m > 0 && n > 0
    ensures n * m > 0 && x / (n * m) == (x / m) / n
  {
    var q := x / m;
    Recompose(x, m, q / n, q % n, n);
    RemainderFits(q % n, x % m, m, n);
    UniqueQuotient(x, n * m, q / n, (q % n) * m + x % m);
  }

  lemma Recompose(x: nat, m: nat, a: nat, b: nat, n: nat)
    requires m > 0 && x / m == a * n + b
    ensures x == a * (n * m) + (b * m + x % m)
  {
    Rearrange(a, b, m, n);
  }

  /** A block that is a multiple of 2^96 only looks at the two leading words. */
  lemma WithinByHead(x: nat, head: nat, size: nat)
    requires size > 0
    ensures size * P96 > 0 && (Within(x, Block(head * P96, size * P96)) <==> (x / P96) / size == head / size)
  {
    DivideTwice(x, P96, size);
    DivideTwice(head * P96, P96, size);
    UniqueQuotient(head * P96, P96, head, 0);
  }

  /** On every 128-bit address the verdict is: inside 2000::/3 and outside the carved blocks. The two
      clauses about 2001:20::/28 and 2001:30::/28 add nothing to 2001::/23. */
  lemma Public6IsGlobalUncarved(first: nat, second: nat, rest: nat)
    requires first < 0x1_0000 && second < 0x1_0000 && rest < P96
    ensures var x := (first * 0x1_0000 + second) * P96 + rest;
            Public6Words(first, second) <==>
              Within(x, GLOBAL) && (forall i :: 0 <= i < |CARVED| ==> CARVED[i].size > 0 && !Within(x, CARVED[i]))
  {
    var head := first * 0x1_0000 + second;
    var x := head * P96 + rest;
    UniqueQuotient(x, P96, head, rest);
    WithinByHead(x, 0x2000_0000, 0x2000_0000);
    WithinByHead(x, 0x2001_0000, 0x200);
    WithinByHead(x, 0x2001_0db8, 1);
    WithinByHead(x, 0x2002_0000, 0x1_0000);
    WithinByHead(x, 0x3fff_0000, 0x1000);
    assert |CARVED| == 4;
    assert Within(x, GLOBAL) <==> 0x2000 <= first <= 0x3fff;
    assert Within(x, CARVED[0]) <==> first == 0x2001 && second < 0x200;
    assert Within(x, CARVED[1]) <==> first == 0x2001 && second == 0xdb8;
    assert Within(x, CARVED[2]) <==> first == 0x2002;
    assert Within(x, CARVED[3]) <==> first == 0x3fff && second < 0x1000;
  }

  // ------------------------------------------------------------------ IPv6, on text

  predicate Clean(word: string) { word != "" && ':' !in word }

  function LowerChar(c: char): char { if 'A' <= c <= 'Z' then c + 32 as char else c }

  function Lower(s: string): string { seq(|s|, i requires 0 <= i < |s| => LowerChar(s[i])) }

  function Digit(c: char): nat {
    if '0' <= c <= '9' then c as nat - '0' as nat
    else if 'a' <= c <= 'f' then c as nat - 'a' as nat + 10
    else 0
  }

  /** The number a word of lower-case hexadecimal digits denotes. */
  function Value(word: string): nat {
    if word == "" then 0 else Value(word[..|word| - 1]) * 16 + Digit(word[|word| - 1])
  }

  /** The pieces between single colons, empty ones included. */
  function Split(text: string): (r: seq<string>)
    ensures r != []
  {
    if text == "" then [""]
    else if text[0] == ':' then [""] + Split(text[1..])
    else var r := Split(text[1..]); [[text[0]] + r[0]] + r[1..]
  }

  /** The pieces between double colons, read from the left. */
  function Halves(text: string): (r: seq<string>)
    ensures r != []
  {
    if text == "" then [""]
    else if |text| >= 2 && text[0] == ':' && text[1] == ':' then [""] + Halves(text[2..])
    else var r := Halves(text[1..]); [[text[0]] + r[0]] + r[1..]
  }

  function Pieces(half: string): seq<string> { if half == "" then [] else Split(half) }

  function Zeros(n: int): seq<string> { if n <= 0 then [] else ["0"] + Zeros(n - 1) }

  function Words(text: string): seq<string> {
    var halves := Halves(Lower(text));
    var left := Pieces(halves[0]);
    var right := if |halves| > 1 then Pieces(halves[1]) else [];
    if |halves| == 1 then left else left + Zeros(8 - |left| - |right|) + right
  }

  /** The IPv6 verdict on an address text that `isIP` already accepted as IPv6. */
  function Public6(text: string): bool {
    var words := Words(text);
    var word := (i: nat) => if i < |words| then Value(words[i]) else 0;
    '.' !in text && '%' !in text && Public6Words(word(0), word(1))
  }

  function Join(words: seq<string>): string {
    if words == [] then "" else if |words| == 1 then words[0] else words[0] + ":" + Join(words[1..])
  }

  ghost predicate AllClean(words: seq<string>) { forall i :: 0 <= i < |words| ==> Clean(words[i]) }

  function LowerAll(words: seq<string>): seq<string> { seq(|words|, i requires 0 <= i < |words| => Lower(words[i])) }

  lemma LowerAppend(a: string, b: string)
    ensures Lower(a + b) == Lower(a) + Lower(b)
  {
  }

  lemma {:induction false} LowerJoin(words: seq<string>)
    ensures Lower(Join(words)) == Join(LowerAll(words))
  {
    if |words| > 1 {
      LowerAppend(words[0] + ":", Join(words[1..]));
      LowerAppend(words[0], ":");
      LowerJoin(words[1..]);
      assert LowerAll(words)[1..] == LowerAll(words[1..]);
      assert Lower(":") == ":";
    }
  }

  lemma LowerClean(words: seq<string>)
    requires AllClean(words)
    ensures AllClean(LowerAll(words))
  {
    forall i | 0 <= i < |words| ensures Clean(LowerAll(words)[i]) {
      var w := words[i];
      assert forall k :: 0 <= k < |w| ==> Lower(w)[k] == LowerChar(w[k]) && w[k] != ':';
    }
  }

  /** Splitting what was joined gives the words back. */
  lemma {:induction false} SplitWord(word: string, tail: string)
    requires ':' !in word
    ensures Split(word + tail) == [word + Split(tail)[0]] + Split(tail)[1..]
  {
    if word == "" {
      var t := Split(tail);
      assert word + tail == tail && word + t[0] == t[0] && t == [t[0]] + t[1..];
    } else {
      assert (word + tail)[1..] == word[1..] + tail;
      SplitWord(word[1..], tail);
      var t := Split(tail);
      assert Split(word[1..] + tail)[0] == word[1..] + t[0] && Split(word[1..] + tail)[1..] == t[1..];
      assert [word[0]] + (word[1..] + t[0]) == word + t[0];
    }
  }

  lemma {:induction false} SplitJoin(words: seq<string>)
    requires words != [] && AllClean(words)
    ensures Split(Join(words)) == words
  {
    if |words| == 1 {
      SplitWord(words[0], "");
      assert words[0] + "" == words[0];
    } else {
      var tail := ":" + Join(words[1..]);
      assert Join(words) == words[0] + tail;
      SplitWord(words[0], tail);
      SplitJoin(words[1..]);
      assert tail[1..] == Join(words[1..]);
      assert Split(tail) == [""] + words[1..] && Split(tail)[1..] == words[1..];
      assert words[0] + "" == words[0];
    }
  }

  predicate NoDouble(text: string) { forall i :: 0 <= i < |text| - 1 ==> !(text[i] == ':' && text[i + 1] == ':') }

  predicate Bordered(text: string) { text == "" || (text[0] != ':' && text[|text| - 1] != ':') }

  lemma {:induction false} JoinIsSingle(words: seq<string>)
    requires AllClean(words)
    ensures NoDouble(Join(words)) && Bordered(Join(words)) && (words != [] ==> Join(words) != "")
  {
    if words != [] {
      assert Clean(words[0]);
      if |words| > 1 {
        JoinIsSingle(words[1..]);
      }
    }
  }

  /** Text without a double colon is one half; a double colon between two such texts makes two. */
  lemma {:induction false} HalvesOfSingle(text: string)
    requires NoDouble(text)
    ensures Halves(text) == [text]
  {
    if text != "" {
      assert forall i :: 0 <= i < |text| - 1 ==> text[1..][i] == text[i + 1];
      HalvesOfSingle(text[1..]);
      assert |text| >= 2 ==> !(text[0] == ':' && text[0 + 1] == ':');
      assert [text[0]] + text[1..] == text;
    }
  }

  /** The left part may begin with a single colon, as the recursion meets it. */
  lemma {:induction false} HalvesOfDouble(left: string, right: string)
    requires NoDouble(left) && (left == "" || left[|left| - 1] != ':') && NoDouble(right)
    ensures Halves(left + "::" + right) == [left, right]
  {
    var text := left + "::" + right;
    if left == "" {
      assert text[2..] == right;
      HalvesOfSingle(right);
    } else {
      assert text[1..] == left[1..] + "::" + right;
      assert forall i :: 0 <= i < |left| - 1 ==> left[1..][i] == left[i + 1];
      if |left| >= 2 { assert text[1] == left[0 + 1] && !(left[0] == ':' && left[0 + 1] == ':'); }
      HalvesOfDouble(left[1..], right);
      assert [text[0]] + left[1..] == left;
    }
  }

  // ------------------------------------------------------------------ the verdict does not depend on spelling

  predicate Zero(word: string) { Value(word) == 0 }

  /** The spelling that writes the words `i .. j` as a double colon. */
  function Compressed(words: seq<string>, i: nat, j: nat): string
    requires i <= j <= |words|
  {
    Join(words[..i]) + "::" + Join(words[j..])
  }

  lemma WordsOfFull(words: seq<string>)
    requires words != [] && AllClean(words)
    ensures Words(Join(words)) == LowerAll(words)
  {
    LowerJoin(words);
    LowerClean(words);
    JoinIsSingle(LowerAll(words));
    HalvesOfSingle(Join(LowerAll(words)));
    SplitJoin(LowerAll(words));
  }

  lemma PiecesOfJoin(words: seq<string>)
    requires AllClean(words)
    ensures Pieces(Join(words)) == words
  {
    JoinIsSingle(words);
    if words != [] { SplitJoin(words); }
  }

  lemma LowerCompressed(words: seq<string>, i: nat, j: nat)
    requires i <= j <= |words|
    ensures Lower(Compressed(words, i, j)) == Compressed(LowerAll(words), i, j)
  {
    var left, right := words[..i], words[j..];
    LowerAppend(Join(left) + "::", Join(right));
    LowerAppend(Join(left), "::");
    assert Lower("::") == "::";
    LowerJoin(left);
    LowerJoin(right);
    assert LowerAll(left) == LowerAll(words)[..i] && LowerAll(right) == LowerAll(words)[j..];
  }

  lemma HalvesOfCompressed(words: seq<string>, i: nat, j: nat)
    requires i <= j <= |words| && AllClean(words)
    ensures Halves(Compressed(words, i, j)) == [Join(words[..i]), Join(words[j..])]
    ensures Pieces(Join(words[..i])) == words[..i] && Pieces(Join(words[j..])) == words[j..]
  {
    assert AllClean(words[..i]) && AllClean(words[j..]);
    JoinIsSingle(words[..i]);
    JoinIsSingle(words[j..]);
    HalvesOfDouble(Join(words[..i]), Join(words[j..]));
    PiecesOfJoin(words[..i]);
    PiecesOfJoin(words[j..]);
  }

  lemma WordsOfCompressed(words: seq<string>, i: nat, j: nat)
    requires i <= j <= |words| && AllClean(words)
    ensures var low := LowerAll(words);
            Words(Compressed(words, i, j)) == low[..i] + Zeros(8 - i - (|words| - j)) + low[j..]
  {
    LowerCompressed(words, i, j);
    LowerClean(words);
    HalvesOfCompressed(LowerAll(words), i, j);
  }

  lemma {:induction false} ZerosAreZero(n: nat)
    ensures |Zeros(n)| == n && forall k :: 0 <= k < n ==> Zeros(n)[k] == "0"
  {
    if n > 0 { ZerosAreZero(n - 1); }
  }

  lemma ValueOfZero()
    ensures Value("0") == 0
  {
    assert "0"[..0] == "";
    assert Value("0"[..0]) == 0;
  }

  predicate Plain(words: seq<string>) { forall i :: 0 <= i < |words| ==> '.' !in words[i] && '%' !in words[i] }

  lemma {:induction false} JoinIsPlain(words: seq<string>)
    requires Plain(words)
    ensures '.' !in Join(words) && '%' !in Join(words)
  {
    if |words| > 1 {
      assert Plain(words[1..]);
      JoinIsPlain(words[1..]);
    }
  }

  lemma SameValues(words: seq<string>, i: nat, j: nat, got: seq<string>)
    requires i <= j <= |words| && got == LowerAll(words)[..i] + Zeros(j - i) + LowerAll(words)[j..]
    requires forall k :: i <= k < j ==> Zero(Lower(words[k]))
    ensures |got| == |words| && forall k :: 0 <= k < |words| ==> Value(got[k]) == Value(LowerAll(words)[k])
  {
    ZerosAreZero(j - i);
    ValueOfZero();
    forall k | 0 <= k < |words| ensures Value(got[k]) == Value(LowerAll(words)[k]) {
      if i <= k < j {
        assert got[k] == Zeros(j - i)[k - i];
        assert Zero(Lower(words[k]));
      }
    }
  }

  lemma CompressedIsPlain(words: seq<string>, i: nat, j: nat)
    requires i <= j <= |words| && Plain(words)
    ensures '.' !in Compressed(words, i, j) && '%' !in Compressed(words, i, j)
  {
    assert Plain(words[..i]) && Plain(words[j..]);
    JoinIsPlain(words[..i]);
    JoinIsPlain(words[j..]);
    assert '.' !in "::" && '%' !in "::";
  }

  /** Section 2.2 of RFC 4291: whichever run of zero words a "::" stands for, at either end or inside, in
      either case, the verdict is that of the full eight words, and it depends only on the first two. */
  lemma SpellingDoesNotMatter(words: seq<string>, i: nat, j: nat)
    requires |words| == 8 && AllClean(words) && Plain(words) && i <= j <= 8
    requires forall k :: i <= k < j ==> Zero(Lower(words[k]))
    ensures Public6(Compressed(words, i, j)) == Public6(Join(words))
    ensures Public6(Join(words)) == Public6Words(Value(Lower(words[0])), Value(Lower(words[1])))
  {
    FullVerdict(words);
    CompressedVerdict(words, i, j);
  }

  lemma FullVerdict(words: seq<string>)
    requires |words| == 8 && AllClean(words) && Plain(words)
    ensures Public6(Join(words)) == Public6Words(Value(Lower(words[0])), Value(Lower(words[1])))
  {
    WordsOfFull(words);
    JoinIsPlain(words);
  }

  lemma CompressedVerdict(words: seq<string>, i: nat, j: nat)
    requires |words| == 8 && AllClean(words) && Plain(words) && i <= j <= 8
    requires forall k :: i <= k < j ==> Zero(Lower(words[k]))
    ensures Public6(Compressed(words, i, j)) == Public6Words(Value(Lower(words[0])), Value(Lower(words[1])))
  {
    WordsOfCompressed(words, i, j);
    SameValues(words, i, j, Words(Compressed(words, i, j)));
    CompressedIsPlain(words, i, j);
  }

  // ------------------------------------------------------------------ from text to the address

  /** One to four hexadecimal digits make a 16-bit word. */
  predicate IsWord(word: string) { 1 <= |word| <= 4 && ':' !in word && '.' !in word && '%' !in word }

  ghost predicate AreWords(words: seq<string>) { forall i :: 0 <= i < |words| ==> IsWord(words[i]) }

  /** The number whose 16-bit digits, from the top, are these words. */
  function AddressOf(words: seq<string>): nat {
    if words == [] then 0 else AddressOf(words[..|words| - 1]) * 0x1_0000 + Value(Lower(words[|words| - 1]))
  }

  /** `x` followed by `n` words that are zero. */
  function Shifted(x: nat, n: nat): nat { if n == 0 then x else Shifted(x, n - 1) * 0x1_0000 }

  lemma {:induction false} ValueFits(word: string, n: nat)
    requires |word| <= n <= 4
    ensures Value(word) < [1, 0x10, 0x100, 0x1000, 0x1_0000][n]
  {
    if word != [] { ValueFits(word[..|word| - 1], n - 1); }
  }

  lemma AddressSnoc(words: seq<string>, last: string)
    ensures AddressOf(words + [last]) == AddressOf(words) * 0x1_0000 + Value(Lower(last))
  {
    assert (words + [last])[..|words|] == words;
  }

  /** The words above the last `n` and the last `n` make up the address. */
  lemma {:induction false} AddressSplits(top: seq<string>, low: seq<string>)
    requires AreWords(low)
    ensures AddressOf(top + low) == Shifted(AddressOf(top), |low|) + AddressOf(low)
    ensures AddressOf(low) < Shifted(1, |low|)
    decreases |low|
  {
    if low == [] {
      assert top + low == top;
    } else {
      var rest := low[..|low| - 1];
      AddressSplits(top, rest);
      AddressStep(top, low, rest);
    }
  }

  lemma AddressStep(top: seq<string>, low: seq<string>, rest: seq<string>)
    requires AreWords(low) && low != [] && rest == low[..|low| - 1]
    requires AddressOf(top + rest) == Shifted(AddressOf(top), |rest|) + AddressOf(rest) && AddressOf(rest) < Shifted(1, |rest|)
    ensures AddressOf(top + low) == Shifted(AddressOf(top), |low|) + AddressOf(low) && AddressOf(low) < Shifted(1, |low|)
  {
    AddressLast(top, low);
    AddressLast([], low);
    assert [] + low == low && [] + rest == rest;
    ShiftedOnce(AddressOf(top), |rest|);
    ShiftedOnce(1, |rest|);
  }

  lemma ShiftedOnce(x: nat, n: nat)
    ensures Shifted(x, n + 1) == Shifted(x, n) * 0x1_0000
  {
  }

  lemma AddressLast(top: seq<string>, low: seq<string>)
    requires low != [] && AreWords(low)
    ensures var n, last := |low| - 1, low[|low| - 1];
            && AddressOf(top + low) == AddressOf(top + low[..n]) * 0x1_0000 + Value(Lower(last))
            && Value(Lower(last)) < 0x1_0000
  {
    var n, last := |low| - 1, low[|low| - 1];
    assert IsWord(last);
    ValueFits(Lower(last), 4);
    AddressSnoc(top + low[..n], last);
    assert top + low == top + low[..n] + [last];
  }

  lemma ShiftedBySix(x: nat)
    ensures Shifted(x, 6) == x * P96
  {
    assert Shifted(x, 1) == Shifted(x, 0) * 0x1_0000;
    assert Shifted(x, 3) == Shifted(x, 2) * 0x1_0000;
    assert Shifted(x, 5) == Shifted(x, 4) * 0x1_0000;
  }

  lemma TwoAndSix(words: seq<string>)
    requires |words| == 8 && AreWords(words)
    ensures Value(Lower(words[0])) < 0x1_0000 && Value(Lower(words[1])) < 0x1_0000 && AddressOf(words[2..]) < P96
    ensures AddressOf(words) == (Value(Lower(words[0])) * 0x1_0000 + Value(Lower(words[1]))) * P96 + AddressOf(words[2..])
  {
    assert IsWord(words[0]) && IsWord(words[1]);
    ValueFits(Lower(words[0]), 4);
    ValueFits(Lower(words[1]), 4);
    AddressSplits(words[..2], words[2..]);
    assert words == words[..2] + words[2..];
    ShiftedBySix(1);
    ShiftedBySix(AddressOf(words[..2]));
    var top := words[..2];
    assert top[..1] == [words[0]] && [words[0]][..0] == [];
    assert AddressOf([words[0]]) == Value(Lower(words[0]));
  }

  /** Inside 2000::/3, and in none of the blocks carved out of it. */
  predicate IsPublic(x: nat) {
    Within(x, GLOBAL) && forall b :: 0 <= b < |CARVED| ==> CARVED[b].size > 0 && !Within(x, CARVED[b])
  }

  lemma PublicHeads(first: nat, second: nat, rest: nat, x: nat)
    requires first < 0x1_0000 && second < 0x1_0000 && rest < P96 && x == (first * 0x1_0000 + second) * P96 + rest
    ensures x < 0x1_0000_0000 * P96 && (Public6Words(first, second) <==> IsPublic(x))
  {
    Public6IsGlobalUncarved(first, second, rest);
  }

  /** From the text to the verdict: however the address is spelled, with or without a "::", in either case, it
      is public exactly if the 128-bit number its eight words denote lies in 2000::/3 and in none of the four
      blocks carved out of that. */
  lemma SpellingsOfPublicAddresses(words: seq<string>, i: nat, j: nat)
    requires |words| == 8 && AreWords(words) && i <= j <= 8
    requires forall k :: i <= k < j ==> Zero(Lower(words[k]))
    ensures AddressOf(words) < 0x1_0000_0000 * P96
    ensures Public6(Join(words)) <==> IsPublic(AddressOf(words))
    ensures Public6(Compressed(words, i, j)) <==> IsPublic(AddressOf(words))
  {
    forall k | 0 <= k < 8 ensures Clean(words[k]) && '.' !in words[k] && '%' !in words[k] { assert IsWord(words[k]); }
    TwoAndSix(words);
    SpellingDoesNotMatter(words, i, j);
    PublicHeads(Value(Lower(words[0])), Value(Lower(words[1])), AddressOf(words[2..]), AddressOf(words));
  }

  /** Text with a dotted tail or a zone is refused, also where its address lies in the public blocks. */
  lemma DottedTextIsRefused(text: string)
    requires '.' in text || '%' in text
    ensures !Public6(text)
  {
  }

  // ------------------------------------------------------------------ the address a request connects to

  datatype Entry = Entry(family: nat, public: bool)

  /** The choice at the end of `validatePublicUrl`: nothing unless every address is public, then the first
      IPv4 address, or the first address when there is none. */
  method Select(addresses: seq<Entry>) returns (selected: Option<Entry>)
    ensures selected.None? <==> addresses == [] || exists i :: 0 <= i < |addresses| && !addresses[i].public
    ensures selected.Some? ==> selected.value in addresses && selected.value.public
    ensures selected.Some? && (exists i :: 0 <= i < |addresses| && addresses[i].family == 4) ==>
              exists i :: 0 <= i < |addresses| && selected.value == addresses[i] && addresses[i].family == 4
                          && forall k :: 0 <= k < i ==> addresses[k].family != 4
    ensures selected.Some? && (forall i :: 0 <= i < |addresses| ==> addresses[i].family != 4) ==> selected.value == addresses[0]
  {
    if addresses == [] { return None; }
    for i := 0 to |addresses|
      invariant forall k :: 0 <= k < i ==> addresses[k].public
    {
      if !addresses[i].public { return None; }
    }
    for i := 0 to |addresses|
      invariant forall k :: 0 <= k < i ==> addresses[k].family != 4
    {
      if addresses[i].family == 4 { return Some(addresses[i]); }
    }
    return Some(addresses[0]);
  }
}
