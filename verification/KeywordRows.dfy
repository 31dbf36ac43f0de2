/** What the tables of the keyword index say of each keyword, proved a few rows at a time. */
module KeywordRows {
  import opened KeywordTables

  predicate KeywordChar(c: char) {
    'A' <= c <= 'Z' || c == '_'
  }

  function Ascii(c: char): (b: bv8)
    requires KeywordChar(c)
    ensures 0x41 <= b <= 0x5A || b == 0x5F
  {
    match c
    case 'A' => 0x41 case 'B' => 0x42 case 'C' => 0x43 case 'D' => 0x44 case 'E' => 0x45 case 'F' => 0x46
    case 'G' => 0x47 case 'H' => 0x48 case 'I' => 0x49 case 'J' => 0x4A case 'K' => 0x4B case 'L' => 0x4C
    case 'M' => 0x4D case 'N' => 0x4E case 'O' => 0x4F case 'P' => 0x50 case 'Q' => 0x51 case 'R' => 0x52
    case 'S' => 0x53 case 'T' => 0x54 case 'U' => 0x55 case 'V' => 0x56 case 'W' => 0x57 case 'X' => 0x58
    case 'Y' => 0x59 case 'Z' => 0x5A case _ => 0x5F
  }

  /** Lower case of a letter; the identity on all other bytes. */
  function CharMap(b: bv8): bv8 {
    if 0x41 <= b <= 0x5A then b + 0x20 else b
  }

  function FourTimes(b: bv8): bv32 {
    CharMap(b) as bv32 * 4
  }

  function ThreeTimes(b: bv8): bv32 {
    CharMap(b) as bv32 * 3
  }

  function Xor(a: bv32, b: bv32, c: bv32): bv32 {
    a ^ b ^ c
  }

  function Mix(first: bv8, last: bv8, n: bv32): bv32 {
    Xor(FourTimes(first), ThreeTimes(last), n)
  }

  function HashOf(mix: bv32): (h: nat)
    ensures h < N_HASH
  {
    (mix as nat) % N_HASH
  }

  /** The hash of a word from its first and last bytes, in lower case, and its length. */
  function Hash(first: bv8, last: bv8, n: bv32): (h: nat)
    ensures h < N_HASH
  {
    HashOf(Mix(first, last, n))
  }

  function Len32(n: nat): bv32 {
    match n
    case 2 => 2 case 3 => 3 case 4 => 4 case 5 => 5 case 6 => 6 case 7 => 7 case 8 => 8 case 9 => 9
    case 10 => 10 case 11 => 11 case 12 => 12 case 13 => 13 case 14 => 14 case 15 => 15 case 16 => 16 case _ => 17
  }

  lemma LenBits(n: nat)
    requires 2 <= n <= 17
    ensures n as bv32 == Len32(n)
  {
  }

  predicate Sized(k: nat)
    requires k < N_KEYWORD
  {
    |Word(k)| == ALen(k) && 2 <= ALen(k) <= 17 && AOffset(k) + ALen(k) <= N_TEXT
  }

  /** The text that keyword k points to has letter j of its word. */
  predicate Spelled(k: nat, j: nat)
    requires k < N_KEYWORD
  {
    && j < |Word(k)|
    && AOffset(k) + j < N_TEXT
    && ZText(AOffset(k) + j) == Word(k)[j]
  }

  predicate IsAscii(c: char, b: bv8) {
    KeywordChar(c) && Ascii(c) == b
  }

  predicate IsFour(first: bv8, four: bv32) {
    FourTimes(first) == four
  }

  predicate IsThree(last: bv8, three: bv32) {
    ThreeTimes(last) == three
  }

  predicate IsXor(first: bv32, last: bv32, n: bv32, mix: bv32) {
    Xor(first, last, n) == mix
  }

  predicate IsReduced(mix: bv32, h: nat) {
    HashOf(mix) == h
  }

  lemma KeyLengths(k: nat)
    requires k < N_KEYWORD
    ensures KeyLen(k) == Len32(ALen(k))
  {
  }

  /** Its hash value, its length and one letter tell which keyword it is. */
  predicate Owned(k: nat)
    requires k < N_KEYWORD
  {
    var w, d := Word(k), DiffAt(KeyHash(k));
    Owner(KeyHash(k), ALen(k), if d < |w| then w[d] else '_') == k
  }

  lemma SizedFrom0(k: nat)
    ensures 0 <= k < 62 ==> Sized(k)
  {
  }

  lemma SizedFrom62(k: nat)
    ensures 62 <= k < 124 ==> Sized(k)
  {
  }

  lemma {:induction false} AllSized(k: nat)
    requires k < N_KEYWORD
    ensures Sized(k)
  {
    if k < 62 { SizedFrom0(k); }
    else { SizedFrom62(k); }
  }

  lemma SpelledFrom0(k: nat, j: nat)
    ensures 0 <= k < 9 && j < ALen(k) ==> Spelled(k, j)
  {
  }

  lemma SpelledFrom9(k: nat, j: nat)
    ensures 9 <= k < 18 && j < ALen(k) ==> Spelled(k, j)
  {
  }

  lemma SpelledFrom18(k: nat, j: nat)
    ensures 18 <= k < 27 && j < ALen(k) ==> Spelled(k, j)
  {
  }

  lemma SpelledFrom27(k: nat, j: nat)
    ensures 27 <= k < 36 && j < ALen(k) ==> Spelled(k, j)
  {
  }

  lemma SpelledFrom36(k: nat, j: nat)
    ensures 36 <= k < 45 && j < ALen(k) ==> Spelled(k, j)
  {
  }

  lemma SpelledFrom45(k: nat, j: nat)
    ensures 45 <= k < 54 && j < ALen(k) ==> Spelled(k, j)
  {
  }

  lemma SpelledFrom54(k: nat, j: nat)
    ensures 54 <= k < 63 && j < ALen(k) ==> Spelled(k, j)
  {
  }

  lemma SpelledFrom63(k: nat, j: nat)
    ensures 63 <= k < 72 && j < ALen(k) ==> Spelled(k, j)
  {
  }

  lemma SpelledFrom72(k: nat, j: nat)
    ensures 72 <= k < 81 && j < ALen(k) ==> Spelled(k, j)
  {
  }

  lemma SpelledFrom81(k: nat, j: nat)
    ensures 81 <= k < 90 && j < ALen(k) ==> Spelled(k, j)
  {
  }

  lemma SpelledFrom90(k: nat, j: nat)
    ensures 90 <= k < 99 && j < ALen(k) ==> Spelled(k, j)
  {
  }

  lemma SpelledFrom99(k: nat, j: nat)
    ensures 99 <= k < 108 && j < ALen(k) ==> Spelled(k, j)
  {
  }

  lemma SpelledFrom108(k: nat, j: nat)
    ensures 108 <= k < 117 && j < ALen(k) ==> Spelled(k, j)
  {
  }

  lemma SpelledFrom117(k: nat, j: nat)
    ensures 117 <= k < 124 && j < ALen(k) ==> Spelled(k, j)
  {
  }

  lemma {:induction false} AllSpelled(k: nat, j: nat)
    requires k < N_KEYWORD && j < ALen(k)
    ensures Spelled(k, j)
  {
    if k < 9 { SpelledFrom0(k, j); }
    else if k < 18 { SpelledFrom9(k, j); }
    else if k < 27 { SpelledFrom18(k, j); }
    else if k < 36 { SpelledFrom27(k, j); }
    else if k < 45 { SpelledFrom36(k, j); }
    else if k < 54 { SpelledFrom45(k, j); }
    else if k < 63 { SpelledFrom54(k, j); }
    else if k < 72 { SpelledFrom63(k, j); }
    else if k < 81 { SpelledFrom72(k, j); }
    else if k < 90 { SpelledFrom81(k, j); }
    else if k < 99 { SpelledFrom90(k, j); }
    else if k < 108 { SpelledFrom99(k, j); }
    else if k < 117 { SpelledFrom108(k, j); }
    else { SpelledFrom117(k, j); }
  }

  lemma FirstCharFrom0(k: nat)
    ensures 0 <= k < 62 ==> |Word(k)| >= 2 && Word(k)[0] == FirstChar(k)
  {
  }

  lemma FirstCharFrom62(k: nat)
    ensures 62 <= k < 124 ==> |Word(k)| >= 2 && Word(k)[0] == FirstChar(k)
  {
  }

  lemma {:induction false} AllFirstChar(k: nat)
    requires k < N_KEYWORD
    ensures |Word(k)| >= 2 && Word(k)[0] == FirstChar(k)
  {
    if k < 62 { FirstCharFrom0(k); }
    else { FirstCharFrom62(k); }
  }

  lemma LastCharFrom0(k: nat)
    ensures 0 <= k < 31 ==> |Word(k)| >= 2 && Word(k)[|Word(k)|-1] == LastChar(k)
  {
  }

  lemma LastCharFrom31(k: nat)
    ensures 31 <= k < 62 ==> |Word(k)| >= 2 && Word(k)[|Word(k)|-1] == LastChar(k)
  {
  }

  lemma LastCharFrom62(k: nat)
    ensures 62 <= k < 93 ==> |Word(k)| >= 2 && Word(k)[|Word(k)|-1] == LastChar(k)
  {
  }

  lemma LastCharFrom93(k: nat)
    ensures 93 <= k < 124 ==> |Word(k)| >= 2 && Word(k)[|Word(k)|-1] == LastChar(k)
  {
  }

  lemma {:induction false} AllLastChar(k: nat)
    requires k < N_KEYWORD
    ensures |Word(k)| >= 2 && Word(k)[|Word(k)|-1] == LastChar(k)
  {
    if k < 31 { LastCharFrom0(k); }
    else if k < 62 { LastCharFrom31(k); }
    else if k < 93 { LastCharFrom62(k); }
    else { LastCharFrom93(k); }
  }

  lemma {:induction false} FirstAsciiFrom0(k: nat)
    ensures 0 <= k < 62 ==> IsAscii(FirstChar(k), First(k))
  {
    assert IsAscii('A', 0x41);
    assert IsAscii('B', 0x42);
    assert IsAscii('C', 0x43);
    assert IsAscii('D', 0x44);
    assert IsAscii('E', 0x45);
    assert IsAscii('F', 0x46);
    assert IsAscii('G', 0x47);
    assert IsAscii('H', 0x48);
    assert IsAscii('I', 0x49);
    assert IsAscii('K', 0x4B);
    assert IsAscii('L', 0x4C);
    assert IsAscii('N', 0x4E);
    assert IsAscii('O', 0x4F);
    assert IsAscii('Q', 0x51);
    assert IsAscii('R', 0x52);
    assert IsAscii('S', 0x53);
    assert IsAscii('T', 0x54);
    assert IsAscii('U', 0x55);
    assert IsAscii('W', 0x57);
  }

  lemma {:induction false} FirstAsciiFrom62(k: nat)
    ensures 62 <= k < 124 ==> IsAscii(FirstChar(k), First(k))
  {
    assert IsAscii('A', 0x41);
    assert IsAscii('B', 0x42);
    assert IsAscii('C', 0x43);
    assert IsAscii('D', 0x44);
    assert IsAscii('F', 0x46);
    assert IsAscii('G', 0x47);
    assert IsAscii('I', 0x49);
    assert IsAscii('J', 0x4A);
    assert IsAscii('L', 0x4C);
    assert IsAscii('M', 0x4D);
    assert IsAscii('N', 0x4E);
    assert IsAscii('O', 0x4F);
    assert IsAscii('P', 0x50);
    assert IsAscii('R', 0x52);
    assert IsAscii('T', 0x54);
    assert IsAscii('U', 0x55);
    assert IsAscii('V', 0x56);
    assert IsAscii('W', 0x57);
  }

  lemma {:induction false} AllFirstAscii(k: nat)
    requires k < N_KEYWORD
    ensures IsAscii(FirstChar(k), First(k))
  {
    if k < 62 { FirstAsciiFrom0(k); }
    else { FirstAsciiFrom62(k); }
  }

  lemma {:induction false} LastAsciiFrom0(k: nat)
    ensures 0 <= k < 62 ==> IsAscii(LastChar(k), Last(k))
  {
    assert IsAscii('C', 0x43);
    assert IsAscii('D', 0x44);
    assert IsAscii('E', 0x45);
    assert IsAscii('F', 0x46);
    assert IsAscii('G', 0x47);
    assert IsAscii('H', 0x48);
    assert IsAscii('K', 0x4B);
    assert IsAscii('L', 0x4C);
    assert IsAscii('N', 0x4E);
    assert IsAscii('O', 0x4F);
    assert IsAscii('P', 0x50);
    assert IsAscii('R', 0x52);
    assert IsAscii('S', 0x53);
    assert IsAscii('T', 0x54);
    assert IsAscii('X', 0x58);
    assert IsAscii('Y', 0x59);
  }

  lemma {:induction false} LastAsciiFrom62(k: nat)
    ensures 62 <= k < 124 ==> IsAscii(LastChar(k), Last(k))
  {
    assert IsAscii('A', 0x41);
    assert IsAscii('B', 0x42);
    assert IsAscii('C', 0x43);
    assert IsAscii('D', 0x44);
    assert IsAscii('E', 0x45);
    assert IsAscii('F', 0x46);
    assert IsAscii('G', 0x47);
    assert IsAscii('H', 0x48);
    assert IsAscii('K', 0x4B);
    assert IsAscii('L', 0x4C);
    assert IsAscii('M', 0x4D);
    assert IsAscii('N', 0x4E);
    assert IsAscii('O', 0x4F);
    assert IsAscii('P', 0x50);
    assert IsAscii('R', 0x52);
    assert IsAscii('S', 0x53);
    assert IsAscii('T', 0x54);
    assert IsAscii('W', 0x57);
    assert IsAscii('Y', 0x59);
  }

  lemma {:induction false} AllLastAscii(k: nat)
    requires k < N_KEYWORD
    ensures IsAscii(LastChar(k), Last(k))
  {
    if k < 62 { LastAsciiFrom0(k); }
    else { LastAsciiFrom62(k); }
  }

  lemma {:induction false} StartedFrom0(k: nat)
    ensures 0 <= k < 62 ==> IsFour(First(k), KeyFour(k))
  {
    assert IsFour(0x41, 388);
    assert IsFour(0x42, 392);
    assert IsFour(0x43, 396);
    assert IsFour(0x44, 400);
    assert IsFour(0x45, 404);
    assert IsFour(0x46, 408);
    assert IsFour(0x47, 412);
    assert IsFour(0x48, 416);
    assert IsFour(0x49, 420);
    assert IsFour(0x4B, 428);
    assert IsFour(0x4C, 432);
    assert IsFour(0x4E, 440);
    assert IsFour(0x4F, 444);
    assert IsFour(0x51, 452);
    assert IsFour(0x52, 456);
    assert IsFour(0x53, 460);
    assert IsFour(0x54, 464);
    assert IsFour(0x55, 468);
    assert IsFour(0x57, 476);
  }

  lemma {:induction false} StartedFrom62(k: nat)
    ensures 62 <= k < 124 ==> IsFour(First(k), KeyFour(k))
  {
    assert IsFour(0x41, 388);
    assert IsFour(0x42, 392);
    assert IsFour(0x43, 396);
    assert IsFour(0x44, 400);
    assert IsFour(0x46, 408);
    assert IsFour(0x47, 412);
    assert IsFour(0x49, 420);
    assert IsFour(0x4A, 424);
    assert IsFour(0x4C, 432);
    assert IsFour(0x4D, 436);
    assert IsFour(0x4E, 440);
    assert IsFour(0x4F, 444);
    assert IsFour(0x50, 448);
    assert IsFour(0x52, 456);
    assert IsFour(0x54, 464);
    assert IsFour(0x55, 468);
    assert IsFour(0x56, 472);
    assert IsFour(0x57, 476);
  }

  lemma {:induction false} AllStarted(k: nat)
    requires k < N_KEYWORD
    ensures IsFour(First(k), KeyFour(k))
  {
    if k < 62 { StartedFrom0(k); }
    else { StartedFrom62(k); }
  }

  lemma {:induction false} EndedFrom0(k: nat)
    ensures 0 <= k < 62 ==> IsThree(Last(k), KeyThree(k))
  {
    assert IsThree(0x43, 297);
    assert IsThree(0x44, 300);
    assert IsThree(0x45, 303);
    assert IsThree(0x46, 306);
    assert IsThree(0x47, 309);
    assert IsThree(0x48, 312);
    assert IsThree(0x4B, 321);
    assert IsThree(0x4C, 324);
    assert IsThree(0x4E, 330);
    assert IsThree(0x4F, 333);
    assert IsThree(0x50, 336);
    assert IsThree(0x52, 342);
    assert IsThree(0x53, 345);
    assert IsThree(0x54, 348);
    assert IsThree(0x58, 360);
    assert IsThree(0x59, 363);
  }

  lemma {:induction false} EndedFrom62(k: nat)
    ensures 62 <= k < 124 ==> IsThree(Last(k), KeyThree(k))
  {
    assert IsThree(0x41, 291);
    assert IsThree(0x42, 294);
    assert IsThree(0x43, 297);
    assert IsThree(0x44, 300);
    assert IsThree(0x45, 303);
    assert IsThree(0x46, 306);
    assert IsThree(0x47, 309);
    assert IsThree(0x48, 312);
    assert IsThree(0x4B, 321);
    assert IsThree(0x4C, 324);
    assert IsThree(0x4D, 327);
    assert IsThree(0x4E, 330);
    assert IsThree(0x4F, 333);
    assert IsThree(0x50, 336);
    assert IsThree(0x52, 342);
    assert IsThree(0x53, 345);
    assert IsThree(0x54, 348);
    assert IsThree(0x57, 357);
    assert IsThree(0x59, 363);
  }

  lemma {:induction false} AllEnded(k: nat)
    requires k < N_KEYWORD
    ensures IsThree(Last(k), KeyThree(k))
  {
    if k < 62 { EndedFrom0(k); }
    else { EndedFrom62(k); }
  }

  lemma {:induction false} XoredFrom0(k: nat)
    ensures 0 <= k < 31 ==> IsXor(KeyFour(k), KeyThree(k), KeyLen(k), KeyMix(k))
  {
    assert IsXor(456, 360, 7, 167);
    assert IsXor(420, 300, 7, 143);
    assert IsXor(420, 360, 5, 201);
    assert IsXor(400, 297, 4, 189);
    assert IsXor(404, 303, 6, 189);
    assert IsXor(404, 312, 4, 168);
    assert IsXor(396, 321, 5, 200);
    assert IsXor(428, 363, 3, 196);
    assert IsXor(392, 303, 6, 161);
    assert IsXor(408, 330, 7, 213);
    assert IsXor(408, 342, 3, 205);
    assert IsXor(420, 303, 6, 141);
    assert IsXor(456, 336, 6, 158);
    assert IsXor(404, 330, 7, 217);
    assert IsXor(420, 300, 7, 143);
    assert IsXor(388, 300, 3, 171);
    assert IsXor(400, 303, 8, 183);
    assert IsXor(388, 345, 2, 223);
    assert IsXor(460, 348, 6, 150);
    assert IsXor(464, 303, 5, 250);
    assert IsXor(432, 348, 4, 232);
    assert IsXor(464, 330, 4, 158);
    assert IsXor(404, 300, 3, 187);
    assert IsXor(400, 303, 10, 181);
    assert IsXor(404, 303, 4, 191);
    assert IsXor(404, 348, 6, 206);
    assert IsXor(464, 330, 11, 145);
    assert IsXor(388, 330, 6, 200);
    assert IsXor(444, 330, 2, 244);
    assert IsXor(440, 324, 7, 251);
    assert IsXor(388, 342, 5, 215);
  }

  lemma {:induction false} XoredFrom31(k: nat)
    ensures 31 <= k < 62 ==> IsXor(KeyFour(k), KeyThree(k), KeyLen(k), KeyMix(k))
  {
    assert IsXor(456, 303, 5, 226);
    assert IsXor(404, 303, 9, 178);
    assert IsXor(404, 345, 6, 203);
    assert IsXor(460, 348, 9, 153);
    assert IsXor(420, 348, 9, 241);
    assert IsXor(464, 342, 7, 129);
    assert IsXor(456, 345, 10, 155);
    assert IsXor(396, 348, 10, 218);
    assert IsXor(420, 333, 4, 237);
    assert IsXor(444, 348, 6, 230);
    assert IsXor(444, 306, 2, 140);
    assert IsXor(460, 348, 3, 147);
    assert IsXor(464, 363, 9, 178);
    assert IsXor(464, 336, 4, 132);
    assert IsXor(444, 342, 2, 232);
    assert IsXor(468, 303, 6, 253);
    assert IsXor(452, 363, 5, 170);
    assert IsXor(476, 348, 7, 135);
    assert IsXor(476, 312, 4, 224);
    assert IsXor(444, 342, 5, 239);
    assert IsXor(456, 303, 7, 224);
    assert IsXor(388, 312, 6, 186);
    assert IsXor(416, 309, 6, 147);
    assert IsXor(412, 336, 5, 201);
    assert IsXor(468, 303, 6, 253);
    assert IsXor(392, 330, 5, 199);
    assert IsXor(420, 342, 5, 247);
    assert IsXor(456, 303, 9, 238);
    assert IsXor(392, 330, 7, 197);
    assert IsXor(440, 324, 7, 251);
    assert IsXor(440, 348, 3, 231);
  }

  lemma {:induction false} XoredFrom62(k: nat)
    ensures 62 <= k < 93 ==> IsXor(KeyFour(k), KeyThree(k), KeyLen(k), KeyMix(k))
  {
    assert IsXor(440, 333, 2, 247);
    assert IsXor(440, 324, 4, 248);
    assert IsXor(432, 303, 4, 155);
    assert IsXor(396, 303, 7, 164);
    assert IsXor(388, 297, 3, 174);
    assert IsXor(400, 303, 6, 185);
    assert IsXor(396, 303, 4, 167);
    assert IsXor(396, 303, 7, 164);
    assert IsXor(396, 303, 6, 165);
    assert IsXor(396, 303, 12, 175);
    assert IsXor(400, 312, 6, 174);
    assert IsXor(420, 303, 9, 130);
    assert IsXor(424, 330, 4, 230);
    assert IsXor(420, 348, 6, 254);
    assert IsXor(436, 312, 5, 137);
    assert IsXor(448, 330, 4, 142);
    assert IsXor(388, 303, 7, 172);
    assert IsXor(448, 291, 6, 229);
    assert IsXor(388, 348, 5, 221);
    assert IsXor(472, 345, 6, 135);
    assert IsXor(472, 324, 7, 155);
    assert IsXor(432, 348, 5, 233);
    assert IsXor(476, 330, 4, 146);
    assert IsXor(476, 303, 5, 246);
    assert IsXor(456, 303, 6, 225);
    assert IsXor(388, 342, 5, 215);
    assert IsXor(456, 303, 7, 224);
    assert IsXor(388, 300, 3, 171);
    assert IsXor(400, 348, 7, 203);
    assert IsXor(388, 348, 13, 213);
    assert IsXor(464, 333, 2, 159);
  }

  lemma {:induction false} XoredFrom93(k: nat)
    ensures 93 <= k < 124 ==> IsXor(KeyFour(k), KeyThree(k), KeyLen(k), KeyMix(k))
  {
    assert IsXor(420, 330, 2, 236);
    assert IsXor(396, 348, 4, 212);
    assert IsXor(396, 330, 6, 192);
    assert IsXor(396, 348, 6, 214);
    assert IsXor(396, 348, 8, 216);
    assert IsXor(396, 345, 5, 208);
    assert IsXor(396, 336, 17, 205);
    assert IsXor(396, 303, 12, 175);
    assert IsXor(448, 363, 7, 172);
    assert IsXor(400, 300, 8, 180);
    assert IsXor(400, 348, 8, 196);
    assert IsXor(420, 345, 2, 255);
    assert IsXor(400, 336, 4, 196);
    assert IsXor(408, 324, 4, 216);
    assert IsXor(408, 327, 4, 219);
    assert IsXor(408, 324, 4, 216);
    assert IsXor(412, 294, 4, 190);
    assert IsXor(392, 363, 2, 225);
    assert IsXor(420, 306, 2, 148);
    assert IsXor(420, 324, 6, 230);
    assert IsXor(444, 342, 5, 239);
    assert IsXor(456, 348, 8, 156);
    assert IsXor(456, 348, 5, 145);
    assert IsXor(456, 321, 8, 129);
    assert IsXor(456, 357, 3, 174);
    assert IsXor(468, 330, 5, 155);
    assert IsXor(468, 309, 5, 228);
    assert IsXor(472, 327, 6, 153);
    assert IsXor(472, 357, 4, 185);
    assert IsXor(420, 363, 9, 198);
    assert IsXor(388, 324, 3, 195);
  }

  lemma {:induction false} AllXored(k: nat)
    requires k < N_KEYWORD
    ensures IsXor(KeyFour(k), KeyThree(k), KeyLen(k), KeyMix(k))
  {
    if k < 31 { XoredFrom0(k); }
    else if k < 62 { XoredFrom31(k); }
    else if k < 93 { XoredFrom62(k); }
    else { XoredFrom93(k); }
  }

  lemma {:induction false} ReducedFrom0(k: nat)
    ensures 0 <= k < 62 ==> IsReduced(KeyMix(k), KeyHash(k))
  {
    assert IsReduced(129, 2);
    assert IsReduced(132, 5);
    assert IsReduced(135, 8);
    assert IsReduced(140, 13);
    assert IsReduced(141, 14);
    assert IsReduced(143, 16);
    assert IsReduced(145, 18);
    assert IsReduced(147, 20);
    assert IsReduced(150, 23);
    assert IsReduced(153, 26);
    assert IsReduced(155, 28);
    assert IsReduced(158, 31);
    assert IsReduced(161, 34);
    assert IsReduced(167, 40);
    assert IsReduced(168, 41);
    assert IsReduced(170, 43);
    assert IsReduced(171, 44);
    assert IsReduced(178, 51);
    assert IsReduced(181, 54);
    assert IsReduced(183, 56);
    assert IsReduced(186, 59);
    assert IsReduced(187, 60);
    assert IsReduced(189, 62);
    assert IsReduced(191, 64);
    assert IsReduced(196, 69);
    assert IsReduced(197, 70);
    assert IsReduced(199, 72);
    assert IsReduced(200, 73);
    assert IsReduced(201, 74);
    assert IsReduced(203, 76);
    assert IsReduced(205, 78);
    assert IsReduced(206, 79);
    assert IsReduced(213, 86);
    assert IsReduced(215, 88);
    assert IsReduced(217, 90);
    assert IsReduced(218, 91);
    assert IsReduced(223, 96);
    assert IsReduced(224, 97);
    assert IsReduced(226, 99);
    assert IsReduced(230, 103);
    assert IsReduced(231, 104);
    assert IsReduced(232, 105);
    assert IsReduced(237, 110);
    assert IsReduced(238, 111);
    assert IsReduced(239, 112);
    assert IsReduced(241, 114);
    assert IsReduced(244, 117);
    assert IsReduced(247, 120);
    assert IsReduced(250, 123);
    assert IsReduced(251, 124);
    assert IsReduced(253, 126);
  }

  lemma {:induction false} ReducedFrom62(k: nat)
    ensures 62 <= k < 124 ==> IsReduced(KeyMix(k), KeyHash(k))
  {
    assert IsReduced(129, 2);
    assert IsReduced(130, 3);
    assert IsReduced(135, 8);
    assert IsReduced(137, 10);
    assert IsReduced(142, 15);
    assert IsReduced(145, 18);
    assert IsReduced(146, 19);
    assert IsReduced(148, 21);
    assert IsReduced(153, 26);
    assert IsReduced(155, 28);
    assert IsReduced(156, 29);
    assert IsReduced(159, 32);
    assert IsReduced(164, 37);
    assert IsReduced(165, 38);
    assert IsReduced(167, 40);
    assert IsReduced(171, 44);
    assert IsReduced(172, 45);
    assert IsReduced(174, 47);
    assert IsReduced(175, 48);
    assert IsReduced(180, 53);
    assert IsReduced(185, 58);
    assert IsReduced(190, 63);
    assert IsReduced(192, 65);
    assert IsReduced(195, 68);
    assert IsReduced(196, 69);
    assert IsReduced(198, 71);
    assert IsReduced(203, 76);
    assert IsReduced(205, 78);
    assert IsReduced(208, 81);
    assert IsReduced(212, 85);
    assert IsReduced(213, 86);
    assert IsReduced(214, 87);
    assert IsReduced(215, 88);
    assert IsReduced(216, 89);
    assert IsReduced(219, 92);
    assert IsReduced(221, 94);
    assert IsReduced(224, 97);
    assert IsReduced(225, 98);
    assert IsReduced(228, 101);
    assert IsReduced(229, 102);
    assert IsReduced(230, 103);
    assert IsReduced(233, 106);
    assert IsReduced(236, 109);
    assert IsReduced(239, 112);
    assert IsReduced(246, 119);
    assert IsReduced(247, 120);
    assert IsReduced(248, 121);
    assert IsReduced(254, 0);
    assert IsReduced(255, 1);
  }

  lemma {:induction false} AllReduced(k: nat)
    requires k < N_KEYWORD
    ensures IsReduced(KeyMix(k), KeyHash(k))
  {
    if k < 62 { ReducedFrom0(k); }
    else { ReducedFrom62(k); }
  }

  lemma OwnedFrom0(k: nat)
    ensures 0 <= k < 12 ==> Owned(k)
  {
  }

  lemma OwnedFrom12(k: nat)
    ensures 12 <= k < 24 ==> Owned(k)
  {
  }

  lemma OwnedFrom24(k: nat)
    ensures 24 <= k < 36 ==> Owned(k)
  {
  }

  lemma OwnedFrom36(k: nat)
    ensures 36 <= k < 48 ==> Owned(k)
  {
  }

  lemma OwnedFrom48(k: nat)
    ensures 48 <= k < 60 ==> Owned(k)
  {
  }

  lemma OwnedFrom60(k: nat)
    ensures 60 <= k < 72 ==> Owned(k)
  {
  }

  lemma OwnedFrom72(k: nat)
    ensures 72 <= k < 84 ==> Owned(k)
  {
  }

  lemma OwnedFrom84(k: nat)
    ensures 84 <= k < 96 ==> Owned(k)
  {
  }

  lemma OwnedFrom96(k: nat)
    ensures 96 <= k < 108 ==> Owned(k)
  {
  }

  lemma OwnedFrom108(k: nat)
    ensures 108 <= k < 120 ==> Owned(k)
  {
  }

  lemma OwnedFrom120(k: nat)
    ensures 120 <= k < 124 ==> Owned(k)
  {
  }

  lemma {:induction false} AllOwned(k: nat)
    requires k < N_KEYWORD
    ensures Owned(k)
  {
    if k < 12 { OwnedFrom0(k); }
    else if k < 24 { OwnedFrom12(k); }
    else if k < 36 { OwnedFrom24(k); }
    else if k < 48 { OwnedFrom36(k); }
    else if k < 60 { OwnedFrom48(k); }
    else if k < 72 { OwnedFrom60(k); }
    else if k < 84 { OwnedFrom72(k); }
    else if k < 96 { OwnedFrom84(k); }
    else if k < 108 { OwnedFrom96(k); }
    else if k < 120 { OwnedFrom108(k); }
    else { OwnedFrom120(k); }
  }

  lemma {:induction false} MixOfKeyword(k: nat)
    requires k < N_KEYWORD
    ensures Mix(First(k), Last(k), KeyLen(k)) == KeyMix(k)
  {
    AllStarted(k);
    AllEnded(k);
    AllXored(k);
  }

  lemma HashOfMix(first: bv8, last: bv8, n: bv32, mix: bv32)
    requires Mix(first, last, n) == mix
    ensures Hash(first, last, n) == HashOf(mix)
  {
  }

  /** First and last bytes and the length of keyword k give its hash value. */
  lemma {:induction false} HashOfKeyword(k: nat)
    requires k < N_KEYWORD
    ensures Hash(First(k), Last(k), KeyLen(k)) == KeyHash(k)
  {
    MixOfKeyword(k);
    HashOfMix(First(k), Last(k), KeyLen(k), KeyMix(k));
    AllReduced(k);
  }
}
