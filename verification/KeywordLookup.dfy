/** The lookup of a word in the generated keyword index, against a plain search of the list of keywords. */
module KeywordLookup {
  import opened KeywordTables
  import opened KeywordRows
  import opened TokenNames

  /** Every keyword is the first of the chain of its hash value, or the next of one with that value. */
  lemma Chained(k: nat)
    requires k < N_KEYWORD
    ensures if APrev(k) == 0 then AHash(KeyHash(k)) == k + 1
            else ANext(APrev(k) - 1) == k + 1 && KeyHash(APrev(k) - 1) == KeyHash(k)
  {
  }

  lemma TextChars(i: nat)
    requires i < N_TEXT
    ensures KeywordChar(ZText(i))
  {
  }

  // ----- The chains -----

  /** Keyword k is on the chain that starts at i. */
  predicate OnChain(i: int, k: nat)
    requires i < N_KEYWORD
    decreases i
  {
    0 <= i && (i == k || OnChain(ANext(i) - 1, k))
  }

  lemma {:induction false} NextOnChain(i: int, p: nat)
    requires i < N_KEYWORD && p < N_KEYWORD && OnChain(i, p) && ANext(p) > 0
    ensures OnChain(i, ANext(p) - 1)
    decreases i
  {
    if i == p {
      assert OnChain(ANext(i) - 1, ANext(p) - 1);
    } else {
      NextOnChain(ANext(i) - 1, p);
    }
  }

  /** Every keyword lies on the chain of its own hash value. */
  lemma {:induction false} OnOwnChain(k: nat)
    requires k < N_KEYWORD
    ensures OnChain(AHash(KeyHash(k)) - 1, k)
    decreases N_KEYWORD - k
  {
    Chained(k);
    if APrev(k) > 0 {
      assert ANext(APrev(k) - 1) <= APrev(k) - 1;
      OnOwnChain(APrev(k) - 1);
      NextOnChain(AHash(KeyHash(k)) - 1, APrev(k) - 1);
    }
  }

  // ----- What the lookup compares -----

  /** The bytes spell the word once bit 5 of each is cleared. */
  predicate SpelledAs(z: seq<bv8>, w: string) {
    && |z| == |w|
    && forall j :: 0 <= j < |z| ==> KeywordChar(w[j]) && z[j] & !0x20 == Ascii(w[j])
  }

  lemma FoldedLetter(b: bv8, u: bv8)
    requires 0x41 <= u <= 0x5A && b & !0x20 == u
    ensures CharMap(b) == CharMap(u)
  {
  }

  lemma {:induction false} FoldedTimes(b: bv8, u: bv8)
    requires 0x41 <= u <= 0x5A && b & !0x20 == u
    ensures FourTimes(b) == FourTimes(u) && ThreeTimes(b) == ThreeTimes(u)
  {
    FoldedLetter(b, u);
  }

  lemma {:induction false} LetterAt(z: seq<bv8>, w: string, j: nat, c: char, u: bv8)
    requires SpelledAs(z, w) && j < |w| && w[j] == c && IsAscii(c, u)
    ensures z[j] & !0x20 == u
  {
    assert KeywordChar(w[j]) && z[j] & !0x20 == Ascii(w[j]);
  }

  lemma {:induction false} SpelledFirst(z: seq<bv8>, k: nat)
    requires k < N_KEYWORD && SpelledAs(z, Word(k))
    ensures 2 <= |z| && z[0] & !0x20 == First(k)
  {
    AllFirstChar(k);
    AllFirstAscii(k);
    LetterAt(z, Word(k), 0, FirstChar(k), First(k));
  }

  lemma {:induction false} SpelledLast(z: seq<bv8>, k: nat)
    requires k < N_KEYWORD && SpelledAs(z, Word(k))
    ensures 2 <= |z| && z[|z|-1] & !0x20 == Last(k)
  {
    AllLastChar(k);
    AllLastAscii(k);
    LetterAt(z, Word(k), |z| - 1, LastChar(k), Last(k));
  }

  lemma {:induction false} SpelledMix(z: seq<bv8>, k: nat)
    requires k < N_KEYWORD && 2 <= |z| && z[0] & !0x20 == First(k) && z[|z|-1] & !0x20 == Last(k)
    ensures Mix(z[0], z[|z|-1], KeyLen(k)) == KeyMix(k)
  {
    FoldedTimes(z[0], First(k));
    FoldedTimes(z[|z|-1], Last(k));
    MixOfKeyword(k);
  }

  lemma {:induction false} LengthBits(k: nat, n: nat)
    requires k < N_KEYWORD && n == ALen(k) && 2 <= n <= 17
    ensures n as bv32 == KeyLen(k)
  {
    KeyLengths(k);
    LenBits(n);
  }

  lemma {:induction false} HashBits(first: bv8, last: bv8, n: bv32, k: nat)
    requires k < N_KEYWORD && Mix(first, last, n) == KeyMix(k)
    ensures Hash(first, last, n) == KeyHash(k)
  {
    HashOfMix(first, last, n, KeyMix(k));
    AllReduced(k);
  }

  /** A word that spells keyword k has the hash value of k. */
  lemma {:induction false} SpelledHash(z: seq<bv8>, k: nat)
    requires k < N_KEYWORD && SpelledAs(z, Word(k))
    ensures 2 <= |z| <= 17 && Hash(z[0], z[|z|-1], |z| as bv32) == KeyHash(k)
  {
    AllSized(k);
    SpelledFirst(z, k);
    SpelledLast(z, k);
    SpelledMix(z, k);
    HashBits(z[0], z[|z|-1], KeyLen(k), k);
    LengthBits(k, |z|);
  }

  lemma SameAscii(c: char, d: char)
    requires KeywordChar(c) && KeywordChar(d) && Ascii(c) == Ascii(d)
    ensures c == d
  {
  }

  /** No two keywords spell the same word. */
  lemma {:induction false} SpelledOnce(z: seq<bv8>, i: nat, k: nat)
    requires i < N_KEYWORD && k < N_KEYWORD && SpelledAs(z, Word(i)) && SpelledAs(z, Word(k))
    ensures i == k
  {
    SpelledHash(z, i);
    SpelledHash(z, k);
    AllSized(i);
    AllSized(k);
    AllOwned(i);
    AllOwned(k);
    var d := DiffAt(KeyHash(k));
    if d < |z| {
      SameAscii(Word(i)[d], Word(k)[d]);
    }
  }

  // ----- Plain search of the list of keywords -----

  /** The first keyword for which p holds. */
  function FirstWhere(p: nat -> bool, from: nat): (k: nat)
    requires from <= N_KEYWORD
    ensures from <= k <= N_KEYWORD
    ensures k < N_KEYWORD ==> p(k)
    ensures forall i :: from <= i < k ==> !p(i)
    decreases N_KEYWORD - from
  {
    if from == N_KEYWORD || p(from) then from else FirstWhere(p, from + 1)
  }

  lemma {:induction false} SameFirst(p: nat -> bool, q: nat -> bool)
    requires forall k: nat :: k < N_KEYWORD ==> p(k) == q(k)
    ensures FirstWhere(p, 0) == FirstWhere(q, 0)
  {
    var i, j := FirstWhere(p, 0), FirstWhere(q, 0);
    assert i < N_KEYWORD ==> q(i);
    assert j < N_KEYWORD ==> p(j);
  }

  predicate Spells(z: seq<bv8>, k: nat) {
    k < N_KEYWORD && SpelledAs(z, Word(k))
  }

  function SpelledBy(z: seq<bv8>): nat -> bool {
    (k: nat) => Spells(z, k)
  }

  function LinearSearch(z: seq<bv8>): (k: nat)
    ensures k <= N_KEYWORD
    ensures k < N_KEYWORD ==> SpelledBy(z)(k)
    ensures forall i :: 0 <= i < k ==> !SpelledBy(z)(i)
  {
    FirstWhere(SpelledBy(z), 0)
  }

  lemma {:induction false} FoundBySearch(z: seq<bv8>, k: nat)
    requires k < N_KEYWORD && SpelledAs(z, Word(k))
    ensures LinearSearch(z) == k
  {
    var i := LinearSearch(z);
    assert SpelledBy(z)(k);
    SpelledOnce(z, i, k);
  }

  /** The part of the text that a keyword points to. */
  function KeywordText(k: nat): (w: string)
    requires k < N_KEYWORD
  {
    AllSized(k);
    seq(ALen(k), j requires 0 <= j < ALen(k) => ZText(AOffset(k) + j))
  }

  lemma {:induction false} TextIsWord(k: nat)
    requires k < N_KEYWORD
    ensures KeywordText(k) == Word(k)
    ensures forall j :: 0 <= j < |Word(k)| ==> KeywordChar(Word(k)[j])
  {
    AllSized(k);
    forall j | 0 <= j < ALen(k) ensures KeywordText(k)[j] == Word(k)[j] && KeywordChar(Word(k)[j]) {
      AllSpelled(k, j);
      TextChars(AOffset(k) + j);
    }
  }

  /** The inner loop of the lookup: the bytes against a text of the same length. */
  method CompareText(z: seq<bv8>, zKW: string) returns (same: bool)
    requires |z| == |zKW| && forall j :: 0 <= j < |zKW| ==> KeywordChar(zKW[j])
    ensures same == SpelledAs(z, zKW)
  {
    var j := 0;
    while j < |z| && z[j] & !0x20 == Ascii(zKW[j])
      invariant 0 <= j <= |z|
      invariant forall l :: 0 <= l < j ==> z[l] & !0x20 == Ascii(zKW[l])
    {
      j := j + 1;
    }
    same := j == |z|;
  }

  /** Every keyword that z spells is still ahead on the chain from i. */
  ghost predicate Ahead(z: seq<bv8>, i: int)
    requires i < N_KEYWORD
  {
    forall k :: 0 <= k < N_KEYWORD && SpelledAs(z, Word(k)) ==> OnChain(i, k)
  }

  function ChainOf(z: seq<bv8>): (i: int)
    requires 2 <= |z| < 0x8000_0000
    ensures -1 <= i < N_KEYWORD
  {
    AHash(Hash(z[0], z[|z|-1], |z| as bv32)) - 1
  }

  lemma {:induction false} AheadAtFirst(z: seq<bv8>)
    requires 2 <= |z| < 0x8000_0000
    ensures Ahead(z, ChainOf(z))
  {
    hide Word, KeyHash, AHash, SpelledAs, OnChain, Hash;
    forall k | 0 <= k < N_KEYWORD && SpelledAs(z, Word(k)) ensures OnChain(ChainOf(z), k) {
      SpelledHash(z, k);
      OnOwnChain(k);
    }
  }

  lemma AheadOfNext(z: seq<bv8>, i: nat)
    requires i < N_KEYWORD && Ahead(z, i) && !SpelledAs(z, Word(i))
    ensures Ahead(z, ANext(i) - 1)
  {
  }

  lemma {:induction false} NothingAhead(z: seq<bv8>)
    requires Ahead(z, -1)
    ensures LinearSearch(z) == N_KEYWORD
  {
    assert LinearSearch(z) < N_KEYWORD ==> SpelledBy(z)(LinearSearch(z));
  }

  lemma {:induction false} TooShort(z: seq<bv8>)
    requires |z| < 2
    ensures LinearSearch(z) == N_KEYWORD
  {
    if LinearSearch(z) < N_KEYWORD {
      AllSized(LinearSearch(z));
    }
  }

  function Outcome(z: seq<bv8>, pType: nat): nat {
    var k := LinearSearch(z);
    if k < N_KEYWORD then ACode(k) else pType
  }

  /** A code is right for z: that of the token called by the keyword that z spells, or the given one if z spells
      none. */
  ghost predicate RightCode(z: seq<bv8>, pType: nat, code: nat) {
    && (forall k: nat :: k < N_KEYWORD && SpelledAs(z, Word(k)) ==> CodeFor(code, Word(k)))
    && ((forall k: nat :: k < N_KEYWORD ==> !SpelledAs(z, Word(k))) ==> code == pType)
  }

  lemma {:induction false} OutcomeIsRight(z: seq<bv8>, pType: nat)
    ensures RightCode(z, pType, Outcome(z, pType))
  {
    hide Word, ACode, CodeFor, SpelledAs;
    forall k: nat | k < N_KEYWORD && SpelledAs(z, Word(k)) ensures CodeFor(Outcome(z, pType), Word(k)) {
      FoundBySearch(z, k);
      AllNamed(k);
    }
    var k := LinearSearch(z);
    assert k < N_KEYWORD ==> SpelledBy(z)(k);
  }

  /** Walks the chain of the hash of z.  If z is a keyword its code is stored, otherwise nothing is. */
  method KeywordCode(z: seq<bv8>, pType: nat) returns (newType: nat)
    requires |z| < 0x8000_0000
    ensures newType == Outcome(z, pType)
    ensures RightCode(z, pType, newType)
  {
    OutcomeIsRight(z, pType);
    newType := pType;
    var n := |z|;
    if n < 2 {
      TooShort(z);
      return;
    }
    var i := ChainOf(z);
    AheadAtFirst(z);
    while i >= 0
      invariant -1 <= i < N_KEYWORD && newType == pType && Ahead(z, i)
      decreases i
    {
      AllSized(i);
      var same := false;
      if ALen(i) == n {
        TextIsWord(i);
        same := CompareText(z, KeywordText(i));
      }
      if same {
        FoundBySearch(z, i);
        newType := ACode(i);
        return;
      }
      AheadOfNext(z, i);
      i := ANext(i) - 1;
    }
    NothingAhead(z);
  }

  method Sqlite3KeywordCode(z: seq<bv8>) returns (id: nat)
    requires |z| < 0x8000_0000
    ensures id == Outcome(z, TK_ID)
    ensures RightCode(z, TK_ID, id) && TokenName(TK_ID) == "ID"
  {
    NamesOfSpecialCodes();
    id := KeywordCode(z, TK_ID);
  }

  // ----- Comparison without regard to case -----

  function Upper(b: bv8): bv8 {
    if 0x61 <= b <= 0x7A then b - 0x20 else b
  }

  predicate EqualIgnoringCase(z: seq<bv8>, w: string) {
    && |z| == |w|
    && forall j :: 0 <= j < |z| ==> KeywordChar(w[j]) && Upper(z[j]) == Ascii(w[j])
  }

  predicate Matches(z: seq<bv8>, k: nat) {
    k < N_KEYWORD && EqualIgnoringCase(z, Word(k))
  }

  function MatchedBy(z: seq<bv8>): nat -> bool {
    (k: nat) => Matches(z, k)
  }

  function PlainSearch(z: seq<bv8>): (k: nat)
    ensures k <= N_KEYWORD
    ensures k < N_KEYWORD ==> MatchedBy(z)(k)
    ensures forall i :: 0 <= i < k ==> !MatchedBy(z)(i)
  {
    FirstWhere(MatchedBy(z), 0)
  }

  const DEL: bv8 := 0x7F

  /** DEL read as an underscore, from which it differs in bit 5 alone. */
  function DelAsUnderscore(z: seq<bv8>): seq<bv8> {
    seq(|z|, j requires 0 <= j < |z| => if z[j] == DEL then 0x5F else z[j])
  }

  lemma ClearedByte(b: bv8, u: bv8)
    requires 0x41 <= u <= 0x5A || u == 0x5F
    ensures b & !0x20 == u <==> Upper(if b == DEL then 0x5F else b) == u
    ensures b == DEL ==> Upper(b) != u
  {
  }

  lemma {:induction false} SpelledIgnoresCase(z: seq<bv8>, w: string)
    ensures SpelledAs(z, w) <==> EqualIgnoringCase(DelAsUnderscore(z), w)
  {
    forall j | 0 <= j < |z| && |z| == |w| && KeywordChar(w[j])
      ensures z[j] & !0x20 == Ascii(w[j]) <==> Upper(DelAsUnderscore(z)[j]) == Ascii(w[j])
    {
      ClearedByte(z[j], Ascii(w[j]));
    }
  }

  lemma {:induction false} SearchesAgree(z: seq<bv8>)
    ensures LinearSearch(z) == PlainSearch(DelAsUnderscore(z))
  {
    forall k: nat | k < N_KEYWORD ensures SpelledBy(z)(k) == MatchedBy(DelAsUnderscore(z))(k) {
      SpelledIgnoresCase(z, Word(k));
    }
    SameFirst(SpelledBy(z), MatchedBy(DelAsUnderscore(z)));
  }

  lemma {:induction false} NoDelInKeyword(z: seq<bv8>, w: string)
    requires DEL in z
    ensures !EqualIgnoringCase(z, w)
  {
    var j :| 0 <= j < |z| && z[j] == DEL;
    if j < |w| && KeywordChar(w[j]) {
      ClearedByte(z[j], Ascii(w[j]));
    }
  }

  lemma {:induction false} NothingWithDel(z: seq<bv8>)
    requires DEL in z
    ensures PlainSearch(z) == N_KEYWORD
  {
    var k := PlainSearch(z);
    if k < N_KEYWORD {
      assert MatchedBy(z)(k);
      NoDelInKeyword(z, Word(k));
    }
  }

  /** The lookup finds what a search without regard to case finds, for exactly those inputs that do not
      become a keyword only by reading a DEL as an underscore. */
  lemma {:induction false} LookupIgnoresCase(z: seq<bv8>)
    ensures LinearSearch(z) == PlainSearch(z)
            <==> !(DEL in z && PlainSearch(DelAsUnderscore(z)) < N_KEYWORD)
  {
    SearchesAgree(z);
    if DEL in z {
      NothingWithDel(z);
    } else {
      assert DelAsUnderscore(z) == z;
    }
  }

  /** CURRENT, a DEL and DATE. */
  const CURRENT_DEL_DATE: seq<bv8> := [0x43, 0x55, 0x52, 0x52, 0x45, 0x4E, 0x54, DEL, 0x44, 0x41, 0x54, 0x45]

  lemma {:induction false} DelSpells()
    ensures SpelledAs(CURRENT_DEL_DATE, "CURRENT_DATE")
  {
    var z, w := CURRENT_DEL_DATE, "CURRENT_DATE";
    assert z[0] & !0x20 == Ascii(w[0]) && z[1] & !0x20 == Ascii(w[1]) && z[2] & !0x20 == Ascii(w[2]);
    assert z[3] & !0x20 == Ascii(w[3]) && z[4] & !0x20 == Ascii(w[4]) && z[5] & !0x20 == Ascii(w[5]);
    assert z[6] & !0x20 == Ascii(w[6]) && z[7] & !0x20 == Ascii(w[7]) && z[8] & !0x20 == Ascii(w[8]);
    assert z[9] & !0x20 == Ascii(w[9]) && z[10] & !0x20 == Ascii(w[10]) && z[11] & !0x20 == Ascii(w[11]);
  }

  lemma {:induction false} WordOfDate()
    ensures Word(71) == "CURRENT_DATE"
  {
  }

  /** An input for which the two searches differ. */
  lemma {:induction false} DelIsTakenForUnderscore()
    ensures LinearSearch(CURRENT_DEL_DATE) == 71 && Word(71) == "CURRENT_DATE"
    ensures PlainSearch(CURRENT_DEL_DATE) == N_KEYWORD
  {
    WordOfDate();
    DelSpells();
    FoundBySearch(CURRENT_DEL_DATE, 71);
    assert CURRENT_DEL_DATE[7] == DEL;
    NothingWithDel(CURRENT_DEL_DATE);
  }
}
