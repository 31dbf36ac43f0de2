/** The names of the tokens as the parser has them for its traces, and which of them a keyword should be. */
module TokenNames {
  import opened KeywordTables
  import opened LemonTables

  /** The name of each token code. */
  function TokenName(i: nat): (name: string)
    requires i < YYNTERMINAL
  {
    match i / 13
    case 0 => (match i % 13
      case 0 => "$" case 1 => "SEMI" case 2 => "EXPLAIN" case 3 => "QUERY"
      case 4 => "PLAN" case 5 => "BEGIN" case 6 => "TRANSACTION" case 7 => "DEFERRED"
      case 8 => "IMMEDIATE" case 9 => "EXCLUSIVE" case 10 => "COMMIT" case 11 => "END"
      case _ => "ROLLBACK")
    case 1 => (match i % 13
      case 0 => "SAVEPOINT" case 1 => "RELEASE" case 2 => "TO" case 3 => "TABLE"
      case 4 => "CREATE" case 5 => "IF" case 6 => "NOT" case 7 => "EXISTS"
      case 8 => "TEMP" case 9 => "LP" case 10 => "RP" case 11 => "AS"
      case _ => "WITHOUT")
    case 2 => (match i % 13
      case 0 => "COMMA" case 1 => "OR" case 2 => "AND" case 3 => "IS"
      case 4 => "MATCH" case 5 => "LIKE_KW" case 6 => "BETWEEN" case 7 => "IN"
      case 8 => "ISNULL" case 9 => "NOTNULL" case 10 => "NE" case 11 => "EQ"
      case _ => "GT")
    case 3 => (match i % 13
      case 0 => "LE" case 1 => "LT" case 2 => "GE" case 3 => "ESCAPE"
      case 4 => "BITAND" case 5 => "BITOR" case 6 => "LSHIFT" case 7 => "RSHIFT"
      case 8 => "PLUS" case 9 => "MINUS" case 10 => "STAR" case 11 => "SLASH"
      case _ => "REM")
    case 4 => (match i % 13
      case 0 => "CONCAT" case 1 => "COLLATE" case 2 => "BITNOT" case 3 => "ID"
      case 4 => "INDEXED" case 5 => "ABORT" case 6 => "ACTION" case 7 => "AFTER"
      case 8 => "ANALYZE" case 9 => "ASC" case 10 => "ATTACH" case 11 => "BEFORE"
      case _ => "BY")
    case 5 => (match i % 13
      case 0 => "CASCADE" case 1 => "CAST" case 2 => "COLUMNKW" case 3 => "CONFLICT"
      case 4 => "DATABASE" case 5 => "DESC" case 6 => "DETACH" case 7 => "EACH"
      case 8 => "FAIL" case 9 => "FOR" case 10 => "IGNORE" case 11 => "INITIALLY"
      case _ => "INSTEAD")
    case 6 => (match i % 13
      case 0 => "NO" case 1 => "KEY" case 2 => "OF" case 3 => "OFFSET"
      case 4 => "PRAGMA" case 5 => "RAISE" case 6 => "RECURSIVE" case 7 => "REPLACE"
      case 8 => "RESTRICT" case 9 => "ROW" case 10 => "TRIGGER" case 11 => "VACUUM"
      case _ => "VIEW")
    case 7 => (match i % 13
      case 0 => "VIRTUAL" case 1 => "WITH" case 2 => "REINDEX" case 3 => "RENAME"
      case 4 => "CTIME_KW" case 5 => "ANY" case 6 => "STRING" case 7 => "JOIN_KW"
      case 8 => "CONSTRAINT" case 9 => "DEFAULT" case 10 => "NULL" case 11 => "PRIMARY"
      case _ => "UNIQUE")
    case 8 => (match i % 13
      case 0 => "CHECK" case 1 => "REFERENCES" case 2 => "AUTOINCR" case 3 => "ON"
      case 4 => "INSERT" case 5 => "DELETE" case 6 => "UPDATE" case 7 => "SET"
      case 8 => "DEFERRABLE" case 9 => "FOREIGN" case 10 => "DROP" case 11 => "UNION"
      case _ => "ALL")
    case 9 => (match i % 13
      case 0 => "EXCEPT" case 1 => "INTERSECT" case 2 => "SELECT" case 3 => "VALUES"
      case 4 => "DISTINCT" case 5 => "DOT" case 6 => "FROM" case 7 => "JOIN"
      case 8 => "USING" case 9 => "ORDER" case 10 => "GROUP" case 11 => "HAVING"
      case _ => "LIMIT")
    case _ => (match i % 13
      case 0 => "WHERE" case 1 => "INTO" case 2 => "FLOAT" case 3 => "BLOB"
      case 4 => "INTEGER" case 5 => "VARIABLE" case 6 => "CASE" case 7 => "WHEN"
      case 8 => "THEN" case 9 => "ELSE" case 10 => "INDEX" case 11 => "ALTER"
      case _ => "ADD")
  }

  /** The code of a name, told from its length and a letter or two. */
  function CodeNamed(w: string): nat {
    match |w|
    case 1 => 0
    case 2 => (match w[1] case 'D' => 55 case 'E' => (match w[0] case 'G' => 41 case 'L' => 39 case _ => 36)
      case 'F' => (match w[0] case 'I' => 18 case _ => 80) case 'N' => (match w[0] case 'I' => 33
      case _ => 107) case 'O' => (match w[0] case 'N' => 78 case _ => 15) case 'P' => (match w[0]
      case 'L' => 22 case _ => 23) case 'Q' => 37 case 'R' => 27 case 'S' => (match w[0] case 'A' => 24
      case _ => 29) case 'T' => (match w[0] case 'G' => 38 case _ => 40) case _ => 64)
    case 3 => (match w[0] case 'A' => (match w[1] case 'D' => 142 case 'L' => 116 case 'N' => (match w[2]
      case 'D' => 28 case _ => 96) case _ => 61) case 'D' => 122 case 'E' => 11 case 'F' => 74 case 'K' => 79
      case 'N' => 19 case 'R' => (match w[1] case 'E' => 51 case _ => 87) case _ => 111)
    case 4 => (match w[3] case 'B' => 133 case 'C' => 70 case 'E' => (match w[0] case 'C' => 136
      case _ => 139) case 'H' => (match w[0] case 'E' => 72 case _ => 92) case 'I' => 1
      case 'L' => (match w[0] case 'F' => 73 case _ => 101) case 'M' => 123 case 'N' => (match w[0]
      case 'J' => 124 case 'P' => 4 case 'T' => 138 case _ => 137) case 'O' => 131 case 'P' => (match w[0]
      case 'D' => 114 case _ => 21) case 'R' => 49 case 'S' => 47 case 'T' => 66 case _ => 90)
    case 5 => (match w[0] case 'A' => (match w[1] case 'B' => 57 case 'F' => 59 case _ => 141)
      case 'B' => (match w[1] case 'E' => 5 case _ => 44) case 'C' => (match w[1] case 'H' => 104
      case _ => 26) case 'F' => 132 case 'G' => 127 case 'I' => 140 case 'L' => 129 case 'M' => (match w[1]
      case 'A' => 30 case _ => 48) case 'O' => 126 case 'Q' => 3 case 'R' => 83 case 'S' => 50 case 'T' => 16
      case 'U' => (match w[1] case 'N' => 115 case _ => 125) case _ => 130)
    case 6 => (match w[0] case 'A' => (match w[1] case 'C' => 58 case _ => 62) case 'B' => (match w[3]
      case 'A' => 43 case 'N' => 54 case _ => 63) case 'C' => (match w[2] case 'E' => 17 case 'M' => 10
      case _ => 52) case 'D' => (match w[2] case 'L' => 109 case _ => 71) case 'E' => (match w[3]
      case 'A' => 42 case 'E' => 117 case _ => 20) case 'H' => 128 case 'I' => (match w[1] case 'G' => 75
      case 'N' => 108 case _ => 34) case 'L' => 45 case 'O' => 81 case 'P' => 82 case 'R' => (match w[1]
      case 'E' => 94 case _ => 46) case 'S' => (match w[1] case 'E' => 119 case _ => 97)
      case 'U' => (match w[1] case 'N' => 103 case _ => 110) case _ => (match w[2] case 'C' => 89
      case _ => 120))
    case 7 => (match w[0] case 'A' => 60 case 'B' => 32 case 'C' => (match w[1] case 'A' => 65 case _ => 53)
      case 'D' => 100 case 'E' => 2 case 'F' => 113 case 'I' => (match w[2] case 'D' => 56 case 'S' => 77
      case _ => 134) case 'J' => 98 case 'L' => 31 case 'N' => 35 case 'P' => 102 case 'R' => (match w[2]
      case 'I' => 93 case 'L' => 14 case _ => 85) case 'T' => 88 case 'V' => 91 case _ => 25)
    case 8 => (match w[3] case 'A' => 69 case 'E' => 7 case 'F' => 68 case 'I' => 135 case 'L' => 12
      case 'M' => 95 case 'O' => 106 case 'T' => (match w[0] case 'D' => 121 case _ => 86) case _ => 67)
    case 9 => (match w[1] case 'A' => 13 case 'E' => 84 case 'M' => 8 case 'N' => (match w[2] case 'I' => 76
      case _ => 118) case _ => 9)
    case 10 => (match w[0] case 'C' => 99 case 'D' => 112 case _ => 105)
    case 11 => 6
    case _ => YYNTERMINAL
  }

  lemma NameOfFrom0(i: nat)
    ensures 0 <= i < 12 ==> CodeNamed(TokenName(i)) == i
  {
  }

  lemma NameOfFrom12(i: nat)
    ensures 12 <= i < 24 ==> CodeNamed(TokenName(i)) == i
  {
  }

  lemma NameOfFrom24(i: nat)
    ensures 24 <= i < 36 ==> CodeNamed(TokenName(i)) == i
  {
  }

  lemma NameOfFrom36(i: nat)
    ensures 36 <= i < 48 ==> CodeNamed(TokenName(i)) == i
  {
  }

  lemma NameOfFrom48(i: nat)
    ensures 48 <= i < 60 ==> CodeNamed(TokenName(i)) == i
  {
  }

  lemma NameOfFrom60(i: nat)
    ensures 60 <= i < 72 ==> CodeNamed(TokenName(i)) == i
  {
  }

  lemma NameOfFrom72(i: nat)
    ensures 72 <= i < 84 ==> CodeNamed(TokenName(i)) == i
  {
  }

  lemma NameOfFrom84(i: nat)
    ensures 84 <= i < 96 ==> CodeNamed(TokenName(i)) == i
  {
  }

  lemma NameOfFrom96(i: nat)
    ensures 96 <= i < 108 ==> CodeNamed(TokenName(i)) == i
  {
  }

  lemma NameOfFrom108(i: nat)
    ensures 108 <= i < 120 ==> CodeNamed(TokenName(i)) == i
  {
  }

  lemma NameOfFrom120(i: nat)
    ensures 120 <= i < 132 ==> CodeNamed(TokenName(i)) == i
  {
  }

  lemma NameOfFrom132(i: nat)
    ensures 132 <= i < 143 ==> CodeNamed(TokenName(i)) == i
  {
  }

  /** No two tokens have one name. */
  lemma {:induction false} NameOf(i: nat)
    requires i < YYNTERMINAL
    ensures CodeNamed(TokenName(i)) == i
  {
    if i < 12 { NameOfFrom0(i); }
    else if i < 24 { NameOfFrom12(i); }
    else if i < 36 { NameOfFrom24(i); }
    else if i < 48 { NameOfFrom36(i); }
    else if i < 60 { NameOfFrom48(i); }
    else if i < 72 { NameOfFrom60(i); }
    else if i < 84 { NameOfFrom72(i); }
    else if i < 96 { NameOfFrom84(i); }
    else if i < 108 { NameOfFrom96(i); }
    else if i < 120 { NameOfFrom108(i); }
    else if i < 132 { NameOfFrom120(i); }
    else { NameOfFrom132(i); }
  }

  /** What the token of a keyword is called: as the keyword itself, but for those that share a token, and two whose
      token has a name of its own. */
  function TokenCalled(w: string): string {
    match |w|
    case 4 => if w == "LEFT" || w == "FULL" then "JOIN_KW" else if w == "LIKE" || w == "GLOB" then "LIKE_KW" else w
    case 5 => if w == "OUTER" || w == "INNER" || w == "CROSS" || w == "RIGHT" then "JOIN_KW" else w
    case 6 => if w == "REGEXP" then "LIKE_KW" else if w == "COLUMN" then "COLUMNKW" else w
    case 7 => if w == "NATURAL" then "JOIN_KW" else w
    case 9 => if w == "TEMPORARY" then "TEMP" else w
    case 12 => if w == "CURRENT_DATE" || w == "CURRENT_TIME" then "CTIME_KW" else w
    case 13 => if w == "AUTOINCREMENT" then "AUTOINCR" else w
    case 17 => if w == "CURRENT_TIMESTAMP" then "CTIME_KW" else w
    case _ => w
  }

  /** The code is that of the token for the word. */
  predicate CodeFor(code: nat, w: string) {
    code < YYNTERMINAL && TokenName(code) == TokenCalled(w)
  }

  /** So there is one code for a word. */
  lemma {:induction false} OneCodeFor(c: nat, d: nat, w: string)
    requires CodeFor(c, w) && CodeFor(d, w)
    ensures c == d
  {
    hide TokenName, CodeNamed, TokenCalled;
    NameOf(c);
    NameOf(d);
  }

  /** The codes that the lookups of the parser treat apart. */
  lemma {:induction false} NamesOfSpecialCodes()
    ensures TokenName(0) == "$" && TokenName(YYWILDCARD) == "ANY" && TokenName(TK_ID) == "ID"
  {
  }

  lemma NamedFrom0(k: nat)
    ensures 0 <= k < 9 ==> CodeFor(ACode(k), Word(k))
  {
  }

  lemma NamedFrom9(k: nat)
    ensures 9 <= k < 18 ==> CodeFor(ACode(k), Word(k))
  {
  }

  lemma NamedFrom18(k: nat)
    ensures 18 <= k < 27 ==> CodeFor(ACode(k), Word(k))
  {
  }

  lemma NamedFrom27(k: nat)
    ensures 27 <= k < 36 ==> CodeFor(ACode(k), Word(k))
  {
  }

  lemma NamedFrom36(k: nat)
    ensures 36 <= k < 45 ==> CodeFor(ACode(k), Word(k))
  {
  }

  lemma NamedFrom45(k: nat)
    ensures 45 <= k < 54 ==> CodeFor(ACode(k), Word(k))
  {
  }

  lemma NamedFrom54(k: nat)
    ensures 54 <= k < 63 ==> CodeFor(ACode(k), Word(k))
  {
  }

  lemma NamedFrom63(k: nat)
    ensures 63 <= k < 72 ==> CodeFor(ACode(k), Word(k))
  {
  }

  lemma NamedFrom72(k: nat)
    ensures 72 <= k < 81 ==> CodeFor(ACode(k), Word(k))
  {
  }

  lemma NamedFrom81(k: nat)
    ensures 81 <= k < 90 ==> CodeFor(ACode(k), Word(k))
  {
  }

  lemma NamedFrom90(k: nat)
    ensures 90 <= k < 99 ==> CodeFor(ACode(k), Word(k))
  {
  }

  lemma NamedFrom99(k: nat)
    ensures 99 <= k < 108 ==> CodeFor(ACode(k), Word(k))
  {
  }

  lemma NamedFrom108(k: nat)
    ensures 108 <= k < 117 ==> CodeFor(ACode(k), Word(k))
  {
  }

  lemma NamedFrom117(k: nat)
    ensures 117 <= k < 124 ==> CodeFor(ACode(k), Word(k))
  {
  }

  /** The code of every keyword is that of the token named for it. */
  lemma {:induction false} AllNamed(k: nat)
    requires k < N_KEYWORD
    ensures CodeFor(ACode(k), Word(k))
  {
    if k < 9 { NamedFrom0(k); }
    else if k < 18 { NamedFrom9(k); }
    else if k < 27 { NamedFrom18(k); }
    else if k < 36 { NamedFrom27(k); }
    else if k < 45 { NamedFrom36(k); }
    else if k < 54 { NamedFrom45(k); }
    else if k < 63 { NamedFrom54(k); }
    else if k < 72 { NamedFrom63(k); }
    else if k < 81 { NamedFrom72(k); }
    else if k < 90 { NamedFrom81(k); }
    else if k < 99 { NamedFrom90(k); }
    else if k < 108 { NamedFrom99(k); }
    else if k < 117 { NamedFrom108(k); }
    else { NamedFrom117(k); }
  }
}
