/** The tables of the generated keyword index, row by row as in the source, and the words they stand for. */
module KeywordTables {
  const N_KEYWORD: nat := 124
  const N_HASH: nat := 127
  const N_TEXT: nat := 553

  const TK_EXPLAIN: nat := 2
  const TK_QUERY: nat := 3
  const TK_PLAN: nat := 4
  const TK_BEGIN: nat := 5
  const TK_TRANSACTION: nat := 6
  const TK_DEFERRED: nat := 7
  const TK_IMMEDIATE: nat := 8
  const TK_EXCLUSIVE: nat := 9
  const TK_COMMIT: nat := 10
  const TK_END: nat := 11
  const TK_ROLLBACK: nat := 12
  const TK_SAVEPOINT: nat := 13
  const TK_RELEASE: nat := 14
  const TK_TO: nat := 15
  const TK_TABLE: nat := 16
  const TK_CREATE: nat := 17
  const TK_IF: nat := 18
  const TK_NOT: nat := 19
  const TK_EXISTS: nat := 20
  const TK_TEMP: nat := 21
  const TK_AS: nat := 24
  const TK_WITHOUT: nat := 25
  const TK_OR: nat := 27
  const TK_AND: nat := 28
  const TK_IS: nat := 29
  const TK_MATCH: nat := 30
  const TK_LIKE_KW: nat := 31
  const TK_BETWEEN: nat := 32
  const TK_IN: nat := 33
  const TK_ISNULL: nat := 34
  const TK_NOTNULL: nat := 35
  const TK_ESCAPE: nat := 42
  const TK_COLLATE: nat := 53
  const TK_ID: nat := 55
  const TK_INDEXED: nat := 56
  const TK_ABORT: nat := 57
  const TK_ACTION: nat := 58
  const TK_AFTER: nat := 59
  const TK_ANALYZE: nat := 60
  const TK_ASC: nat := 61
  const TK_ATTACH: nat := 62
  const TK_BEFORE: nat := 63
  const TK_BY: nat := 64
  const TK_CASCADE: nat := 65
  const TK_CAST: nat := 66
  const TK_COLUMNKW: nat := 67
  const TK_CONFLICT: nat := 68
  const TK_DATABASE: nat := 69
  const TK_DESC: nat := 70
  const TK_DETACH: nat := 71
  const TK_EACH: nat := 72
  const TK_FAIL: nat := 73
  const TK_FOR: nat := 74
  const TK_IGNORE: nat := 75
  const TK_INITIALLY: nat := 76
  const TK_INSTEAD: nat := 77
  const TK_NO: nat := 78
  const TK_KEY: nat := 79
  const TK_OF: nat := 80
  const TK_OFFSET: nat := 81
  const TK_PRAGMA: nat := 82
  const TK_RAISE: nat := 83
  const TK_RECURSIVE: nat := 84
  const TK_REPLACE: nat := 85
  const TK_RESTRICT: nat := 86
  const TK_ROW: nat := 87
  const TK_TRIGGER: nat := 88
  const TK_VACUUM: nat := 89
  const TK_VIEW: nat := 90
  const TK_VIRTUAL: nat := 91
  const TK_WITH: nat := 92
  const TK_REINDEX: nat := 93
  const TK_RENAME: nat := 94
  const TK_CTIME_KW: nat := 95
  const TK_JOIN_KW: nat := 98
  const TK_CONSTRAINT: nat := 99
  const TK_DEFAULT: nat := 100
  const TK_NULL: nat := 101
  const TK_PRIMARY: nat := 102
  const TK_UNIQUE: nat := 103
  const TK_CHECK: nat := 104
  const TK_REFERENCES: nat := 105
  const TK_AUTOINCR: nat := 106
  const TK_ON: nat := 107
  const TK_INSERT: nat := 108
  const TK_DELETE: nat := 109
  const TK_UPDATE: nat := 110
  const TK_SET: nat := 111
  const TK_DEFERRABLE: nat := 112
  const TK_FOREIGN: nat := 113
  const TK_DROP: nat := 114
  const TK_UNION: nat := 115
  const TK_ALL: nat := 116
  const TK_EXCEPT: nat := 117
  const TK_INTERSECT: nat := 118
  const TK_SELECT: nat := 119
  const TK_VALUES: nat := 120
  const TK_DISTINCT: nat := 121
  const TK_FROM: nat := 123
  const TK_JOIN: nat := 124
  const TK_USING: nat := 125
  const TK_ORDER: nat := 126
  const TK_GROUP: nat := 127
  const TK_HAVING: nat := 128
  const TK_LIMIT: nat := 129
  const TK_WHERE: nat := 130
  const TK_INTO: nat := 131
  const TK_CASE: nat := 136
  const TK_WHEN: nat := 137
  const TK_THEN: nat := 138
  const TK_ELSE: nat := 139
  const TK_INDEX: nat := 140
  const TK_ALTER: nat := 141
  const TK_ADD: nat := 142

  /** The overlapping text of all keywords. */
  function ZText(i: nat): (x: char)
    requires i < N_TEXT
  {
    match i / 18
    case 0 => (match i % 18
      case 0 => 'R' case 1 => 'E' case 2 => 'I' case 3 => 'N' case 4 => 'D' case 5 => 'E'
      case 6 => 'X' case 7 => 'E' case 8 => 'D' case 9 => 'E' case 10 => 'S' case 11 => 'C'
      case 12 => 'A' case 13 => 'P' case 14 => 'E' case 15 => 'A' case 16 => 'C' case _ => 'H')
    case 1 => (match i % 18
      case 0 => 'E' case 1 => 'C' case 2 => 'K' case 3 => 'E' case 4 => 'Y' case 5 => 'B'
      case 6 => 'E' case 7 => 'F' case 8 => 'O' case 9 => 'R' case 10 => 'E' case 11 => 'I'
      case 12 => 'G' case 13 => 'N' case 14 => 'O' case 15 => 'R' case 16 => 'E' case _ => 'G')
    case 2 => (match i % 18
      case 0 => 'E' case 1 => 'X' case 2 => 'P' case 3 => 'L' case 4 => 'A' case 5 => 'I'
      case 6 => 'N' case 7 => 'S' case 8 => 'T' case 9 => 'E' case 10 => 'A' case 11 => 'D'
      case 12 => 'D' case 13 => 'A' case 14 => 'T' case 15 => 'A' case 16 => 'B' case _ => 'A')
    case 3 => (match i % 18
      case 0 => 'S' case 1 => 'E' case 2 => 'L' case 3 => 'E' case 4 => 'C' case 5 => 'T'
      case 6 => 'A' case 7 => 'B' case 8 => 'L' case 9 => 'E' case 10 => 'F' case 11 => 'T'
      case 12 => 'H' case 13 => 'E' case 14 => 'N' case 15 => 'D' case 16 => 'E' case _ => 'F')
    case 4 => (match i % 18
      case 0 => 'E' case 1 => 'R' case 2 => 'R' case 3 => 'A' case 4 => 'B' case 5 => 'L'
      case 6 => 'E' case 7 => 'L' case 8 => 'S' case 9 => 'E' case 10 => 'X' case 11 => 'C'
      case 12 => 'E' case 13 => 'P' case 14 => 'T' case 15 => 'R' case 16 => 'A' case _ => 'N')
    case 5 => (match i % 18
      case 0 => 'S' case 1 => 'A' case 2 => 'C' case 3 => 'T' case 4 => 'I' case 5 => 'O'
      case 6 => 'N' case 7 => 'A' case 8 => 'T' case 9 => 'U' case 10 => 'R' case 11 => 'A'
      case 12 => 'L' case 13 => 'T' case 14 => 'E' case 15 => 'R' case 16 => 'A' case _ => 'I')
    case 6 => (match i % 18
      case 0 => 'S' case 1 => 'E' case 2 => 'X' case 3 => 'C' case 4 => 'L' case 5 => 'U'
      case 6 => 'S' case 7 => 'I' case 8 => 'V' case 9 => 'E' case 10 => 'X' case 11 => 'I'
      case 12 => 'S' case 13 => 'T' case 14 => 'S' case 15 => 'A' case 16 => 'V' case _ => 'E')
    case 7 => (match i % 18
      case 0 => 'P' case 1 => 'O' case 2 => 'I' case 3 => 'N' case 4 => 'T' case 5 => 'E'
      case 6 => 'R' case 7 => 'S' case 8 => 'E' case 9 => 'C' case 10 => 'T' case 11 => 'R'
      case 12 => 'I' case 13 => 'G' case 14 => 'G' case 15 => 'E' case 16 => 'R' case _ => 'E')
    case 8 => (match i % 18
      case 0 => 'F' case 1 => 'E' case 2 => 'R' case 3 => 'E' case 4 => 'N' case 5 => 'C'
      case 6 => 'E' case 7 => 'S' case 8 => 'C' case 9 => 'O' case 10 => 'N' case 11 => 'S'
      case 12 => 'T' case 13 => 'R' case 14 => 'A' case 15 => 'I' case 16 => 'N' case _ => 'T')
    case 9 => (match i % 18
      case 0 => 'O' case 1 => 'F' case 2 => 'F' case 3 => 'S' case 4 => 'E' case 5 => 'T'
      case 6 => 'E' case 7 => 'M' case 8 => 'P' case 9 => 'O' case 10 => 'R' case 11 => 'A'
      case 12 => 'R' case 13 => 'Y' case 14 => 'U' case 15 => 'N' case 16 => 'I' case _ => 'Q')
    case 10 => (match i % 18
      case 0 => 'U' case 1 => 'E' case 2 => 'R' case 3 => 'Y' case 4 => 'W' case 5 => 'I'
      case 6 => 'T' case 7 => 'H' case 8 => 'O' case 9 => 'U' case 10 => 'T' case 11 => 'E'
      case 12 => 'R' case 13 => 'E' case 14 => 'L' case 15 => 'E' case 16 => 'A' case _ => 'S')
    case 11 => (match i % 18
      case 0 => 'E' case 1 => 'A' case 2 => 'T' case 3 => 'T' case 4 => 'A' case 5 => 'C'
      case 6 => 'H' case 7 => 'A' case 8 => 'V' case 9 => 'I' case 10 => 'N' case 11 => 'G'
      case 12 => 'R' case 13 => 'O' case 14 => 'U' case 15 => 'P' case 16 => 'D' case _ => 'A')
    case 12 => (match i % 18
      case 0 => 'T' case 1 => 'E' case 2 => 'B' case 3 => 'E' case 4 => 'G' case 5 => 'I'
      case 6 => 'N' case 7 => 'N' case 8 => 'E' case 9 => 'R' case 10 => 'E' case 11 => 'C'
      case 12 => 'U' case 13 => 'R' case 14 => 'S' case 15 => 'I' case 16 => 'V' case _ => 'E')
    case 13 => (match i % 18
      case 0 => 'B' case 1 => 'E' case 2 => 'T' case 3 => 'W' case 4 => 'E' case 5 => 'E'
      case 6 => 'N' case 7 => 'O' case 8 => 'T' case 9 => 'N' case 10 => 'U' case 11 => 'L'
      case 12 => 'L' case 13 => 'I' case 14 => 'K' case 15 => 'E' case 16 => 'C' case _ => 'A')
    case 14 => (match i % 18
      case 0 => 'S' case 1 => 'C' case 2 => 'A' case 3 => 'D' case 4 => 'E' case 5 => 'L'
      case 6 => 'E' case 7 => 'T' case 8 => 'E' case 9 => 'C' case 10 => 'A' case 11 => 'S'
      case 12 => 'E' case 13 => 'C' case 14 => 'O' case 15 => 'L' case 16 => 'L' case _ => 'A')
    case 15 => (match i % 18
      case 0 => 'T' case 1 => 'E' case 2 => 'C' case 3 => 'R' case 4 => 'E' case 5 => 'A'
      case 6 => 'T' case 7 => 'E' case 8 => 'C' case 9 => 'U' case 10 => 'R' case 11 => 'R'
      case 12 => 'E' case 13 => 'N' case 14 => 'T' case 15 => '_' case 16 => 'D' case _ => 'A')
    case 16 => (match i % 18
      case 0 => 'T' case 1 => 'E' case 2 => 'D' case 3 => 'E' case 4 => 'T' case 5 => 'A'
      case 6 => 'C' case 7 => 'H' case 8 => 'I' case 9 => 'M' case 10 => 'M' case 11 => 'E'
      case 12 => 'D' case 13 => 'I' case 14 => 'A' case 15 => 'T' case 16 => 'E' case _ => 'J')
    case 17 => (match i % 18
      case 0 => 'O' case 1 => 'I' case 2 => 'N' case 3 => 'S' case 4 => 'E' case 5 => 'R'
      case 6 => 'T' case 7 => 'M' case 8 => 'A' case 9 => 'T' case 10 => 'C' case 11 => 'H'
      case 12 => 'P' case 13 => 'L' case 14 => 'A' case 15 => 'N' case 16 => 'A' case _ => 'L')
    case 18 => (match i % 18
      case 0 => 'Y' case 1 => 'Z' case 2 => 'E' case 3 => 'P' case 4 => 'R' case 5 => 'A'
      case 6 => 'G' case 7 => 'M' case 8 => 'A' case 9 => 'B' case 10 => 'O' case 11 => 'R'
      case 12 => 'T' case 13 => 'V' case 14 => 'A' case 15 => 'L' case 16 => 'U' case _ => 'E')
    case 19 => (match i % 18
      case 0 => 'S' case 1 => 'V' case 2 => 'I' case 3 => 'R' case 4 => 'T' case 5 => 'U'
      case 6 => 'A' case 7 => 'L' case 8 => 'I' case 9 => 'M' case 10 => 'I' case 11 => 'T'
      case 12 => 'W' case 13 => 'H' case 14 => 'E' case 15 => 'N' case 16 => 'W' case _ => 'H')
    case 20 => (match i % 18
      case 0 => 'E' case 1 => 'R' case 2 => 'E' case 3 => 'N' case 4 => 'A' case 5 => 'M'
      case 6 => 'E' case 7 => 'A' case 8 => 'F' case 9 => 'T' case 10 => 'E' case 11 => 'R'
      case 12 => 'E' case 13 => 'P' case 14 => 'L' case 15 => 'A' case 16 => 'C' case _ => 'E')
    case 21 => (match i % 18
      case 0 => 'A' case 1 => 'N' case 2 => 'D' case 3 => 'E' case 4 => 'F' case 5 => 'A'
      case 6 => 'U' case 7 => 'L' case 8 => 'T' case 9 => 'A' case 10 => 'U' case 11 => 'T'
      case 12 => 'O' case 13 => 'I' case 14 => 'N' case 15 => 'C' case 16 => 'R' case _ => 'E')
    case 22 => (match i % 18
      case 0 => 'M' case 1 => 'E' case 2 => 'N' case 3 => 'T' case 4 => 'C' case 5 => 'A'
      case 6 => 'S' case 7 => 'T' case 8 => 'C' case 9 => 'O' case 10 => 'L' case 11 => 'U'
      case 12 => 'M' case 13 => 'N' case 14 => 'C' case 15 => 'O' case 16 => 'M' case _ => 'M')
    case 23 => (match i % 18
      case 0 => 'I' case 1 => 'T' case 2 => 'C' case 3 => 'O' case 4 => 'N' case 5 => 'F'
      case 6 => 'L' case 7 => 'I' case 8 => 'C' case 9 => 'T' case 10 => 'C' case 11 => 'R'
      case 12 => 'O' case 13 => 'S' case 14 => 'S' case 15 => 'C' case 16 => 'U' case _ => 'R')
    case 24 => (match i % 18
      case 0 => 'R' case 1 => 'E' case 2 => 'N' case 3 => 'T' case 4 => '_' case 5 => 'T'
      case 6 => 'I' case 7 => 'M' case 8 => 'E' case 9 => 'S' case 10 => 'T' case 11 => 'A'
      case 12 => 'M' case 13 => 'P' case 14 => 'R' case 15 => 'I' case 16 => 'M' case _ => 'A')
    case 25 => (match i % 18
      case 0 => 'R' case 1 => 'Y' case 2 => 'D' case 3 => 'E' case 4 => 'F' case 5 => 'E'
      case 6 => 'R' case 7 => 'R' case 8 => 'E' case 9 => 'D' case 10 => 'I' case 11 => 'S'
      case 12 => 'T' case 13 => 'I' case 14 => 'N' case 15 => 'C' case 16 => 'T' case _ => 'D')
    case 26 => (match i % 18
      case 0 => 'R' case 1 => 'O' case 2 => 'P' case 3 => 'F' case 4 => 'A' case 5 => 'I'
      case 6 => 'L' case 7 => 'F' case 8 => 'R' case 9 => 'O' case 10 => 'M' case 11 => 'F'
      case 12 => 'U' case 13 => 'L' case 14 => 'L' case 15 => 'G' case 16 => 'L' case _ => 'O')
    case 27 => (match i % 18
      case 0 => 'B' case 1 => 'Y' case 2 => 'I' case 3 => 'F' case 4 => 'I' case 5 => 'S'
      case 6 => 'N' case 7 => 'U' case 8 => 'L' case 9 => 'L' case 10 => 'O' case 11 => 'R'
      case 12 => 'D' case 13 => 'E' case 14 => 'R' case 15 => 'E' case 16 => 'S' case _ => 'T')
    case 28 => (match i % 18
      case 0 => 'R' case 1 => 'I' case 2 => 'C' case 3 => 'T' case 4 => 'R' case 5 => 'I'
      case 6 => 'G' case 7 => 'H' case 8 => 'T' case 9 => 'R' case 10 => 'O' case 11 => 'L'
      case 12 => 'L' case 13 => 'B' case 14 => 'A' case 15 => 'C' case 16 => 'K' case _ => 'R')
    case 29 => (match i % 18
      case 0 => 'O' case 1 => 'W' case 2 => 'U' case 3 => 'N' case 4 => 'I' case 5 => 'O'
      case 6 => 'N' case 7 => 'U' case 8 => 'S' case 9 => 'I' case 10 => 'N' case 11 => 'G'
      case 12 => 'V' case 13 => 'A' case 14 => 'C' case 15 => 'U' case 16 => 'U' case _ => 'M')
    case _ => (match i % 18
      case 0 => 'V' case 1 => 'I' case 2 => 'E' case 3 => 'W' case 4 => 'I' case 5 => 'N'
      case 6 => 'I' case 7 => 'T' case 8 => 'I' case 9 => 'A' case 10 => 'L' case 11 => 'L'
      case _ => 'Y')
  }

  /** One plus the first keyword on the chain of each hash value, 0 for an empty chain. */
  function AHash(i: nat): (x: nat)
    requires i < N_HASH
    ensures x <= N_KEYWORD
  {
    match i / 13
    case 0 => (match i % 13
      case 0 => 76 case 1 => 105 case 2 => 117 case 3 => 74 case 5 => 45 case 8 => 82 case 10 => 77
      case _ => 0)
    case 1 => (match i % 13
      case 0 => 42 case 1 => 12 case 2 => 78 case 3 => 15 case 5 => 116 case 6 => 85 case 7 => 54
      case 8 => 112 case 10 => 19 case _ => 0)
    case 2 => (match i % 13
      case 0 => 121 case 2 => 119 case 3 => 115 case 5 => 22 case 6 => 93 case 8 => 9 case 11 => 70
      case 12 => 71 case _ => 0)
    case 3 => (match i % 13
      case 1 => 69 case 2 => 6 case 4 => 48 case 5 => 90 case 6 => 102 case 8 => 118 case 9 => 101
      case 12 => 44 case _ => 0)
    case 4 => (match i % 13
      case 1 => 103 case 2 => 24 case 4 => 17 case 6 => 122 case 7 => 53 case 8 => 23 case 10 => 5
      case 11 => 110 case 12 => 25 case _ => 0)
    case 5 => (match i % 13
      case 0 => 96 case 3 => 124 case 4 => 106 case 5 => 60 case 6 => 123 case 7 => 57 case 8 => 28
      case 9 => 55 case 11 => 91 case _ => 0)
    case 6 => (match i % 13
      case 0 => 100 case 1 => 26 case 3 => 99 case 7 => 95 case 8 => 92 case 9 => 97 case 10 => 88
      case 11 => 109 case 12 => 14 case _ => 0)
    case 7 => (match i % 13
      case 0 => 39 case 1 => 108 case 3 => 81 case 5 => 18 case 6 => 89 case 7 => 111 case 8 => 32
      case 10 => 120 case 11 => 80 case 12 => 113 case _ => 0)
    case 8 => (match i % 13
      case 0 => 62 case 1 => 46 case 2 => 84 case 5 => 94 case 6 => 40 case 7 => 59 case 8 => 114
      case 10 => 36 case _ => 0)
    case _ => (match i % 13
      case 0 => 29 case 2 => 86 case 3 => 63 case 4 => 64 case 6 => 20 case 7 => 61 case 9 => 56
      case _ => 0)
  }

  /** One plus the next keyword on the same chain, always an earlier one, 0 at the end. */
  function ANext(i: nat): (x: nat)
    requires i < N_KEYWORD
    ensures x <= i
  {
    match i / 13
    case 0 => (match i % 13
      case 4 => 4 case _ => 0)
    case 1 => (match i % 13
      case 1 => 2 case 8 => 13 case _ => 0)
    case 2 => (match i % 13
      case 1 => 7 case _ => 0)
    case 3 => (match i % 13
      case 4 => 33 case 6 => 21 case 12 => 50 case _ => 0)
    case 4 => (match i % 13
      case 1 => 43 case 2 => 3 case 3 => 47 case 8 => 30 case 10 => 58 case 12 => 38 case _ => 0)
    case 5 => (match i % 13
      case 3 => 1 case 4 => 66 case 7 => 67 case 9 => 41 case _ => 0)
    case 6 => (match i % 13
      case 3 => 49 case 4 => 65 case 9 => 31 case 10 => 52 case 11 => 16 case 12 => 34 case _ => 0)
    case 7 => (match i % 13
      case 0 => 10 case 8 => 11 case 9 => 72 case 10 => 79 case 12 => 8 case _ => 0)
    case 8 => (match i % 13
      case 1 => 104 case 2 => 98 case 4 => 107 case 6 => 87 case 8 => 75 case 9 => 51 case 11 => 27
      case 12 => 37 case _ => 0)
    case _ => (match i % 13
      case 0 => 73 case 1 => 83 case 3 => 35 case 4 => 68 case _ => 0)
  }

  /** The length of each keyword. */
  function ALen(i: nat): (x: nat)
    requires i < N_KEYWORD
  {
    match i / 13
    case 0 => (match i % 13
      case 0 => 7 case 1 => 7 case 2 => 5 case 3 => 4 case 4 => 6 case 5 => 4 case 6 => 5
      case 7 => 3 case 8 => 6 case 9 => 7 case 10 => 3 case 11 => 6 case _ => 6)
    case 1 => (match i % 13
      case 0 => 7 case 1 => 7 case 2 => 3 case 3 => 8 case 4 => 2 case 5 => 6 case 6 => 5
      case 7 => 4 case 8 => 4 case 9 => 3 case 10 => 10 case 11 => 4 case _ => 6)
    case 2 => (match i % 13
      case 0 => 11 case 1 => 6 case 2 => 2 case 3 => 7 case 4 => 5 case 5 => 5 case 6 => 9
      case 7 => 6 case 8 => 9 case 9 => 9 case 10 => 7 case 11 => 10 case _ => 10)
    case 3 => (match i % 13
      case 0 => 4 case 1 => 6 case 2 => 2 case 3 => 3 case 4 => 9 case 5 => 4 case 6 => 2
      case 7 => 6 case 8 => 5 case 9 => 7 case 10 => 4 case 11 => 5 case _ => 7)
    case 4 => (match i % 13
      case 0 => 6 case 1 => 6 case 2 => 5 case 3 => 6 case 4 => 5 case 5 => 5 case 6 => 9
      case 7 => 7 case 8 => 7 case 9 => 3 case 10 => 2 case 11 => 4 case _ => 4)
    case 5 => (match i % 13
      case 0 => 7 case 1 => 3 case 2 => 6 case 3 => 4 case 4 => 7 case 5 => 6 case 6 => 12
      case 7 => 6 case 8 => 9 case 9 => 4 case 10 => 6 case 11 => 5 case _ => 4)
    case 6 => (match i % 13
      case 0 => 7 case 1 => 6 case 2 => 5 case 3 => 6 case 4 => 7 case 5 => 5 case 6 => 4
      case 7 => 5 case 8 => 6 case 9 => 5 case 10 => 7 case 11 => 3 case _ => 7)
    case 7 => (match i % 13
      case 0 => 13 case 1 => 2 case 2 => 2 case 3 => 4 case 4 => 6 case 5 => 6 case 6 => 8
      case 7 => 5 case 8 => 17 case 9 => 12 case 10 => 7 case 11 => 8 case _ => 8)
    case 8 => (match i % 13
      case 0 => 2 case 1 => 4 case 2 => 4 case 3 => 4 case 4 => 4 case 5 => 4 case 6 => 2
      case 7 => 2 case 8 => 6 case 9 => 5 case 10 => 8 case 11 => 5 case _ => 8)
    case _ => (match i % 13
      case 0 => 3 case 1 => 5 case 2 => 5 case 3 => 6 case 4 => 4 case 5 => 9 case _ => 3)
  }

  /** Where each keyword starts in the text. */
  function AOffset(i: nat): (x: nat)
    requires i < N_KEYWORD
  {
    match i / 13
    case 0 => (match i % 13
      case 0 => 0 case 1 => 2 case 2 => 2 case 3 => 8 case 4 => 9 case 5 => 14 case 6 => 16
      case 7 => 20 case 8 => 23 case 9 => 25 case 10 => 25 case 11 => 29 case _ => 33)
    case 1 => (match i % 13
      case 0 => 36 case 1 => 41 case 2 => 46 case 3 => 48 case 4 => 53 case 5 => 54 case 6 => 59
      case 7 => 62 case 8 => 65 case 9 => 67 case 10 => 69 case 11 => 78 case _ => 81)
    case 2 => (match i % 13
      case 0 => 86 case 1 => 91 case 2 => 95 case 3 => 96 case 4 => 101 case 5 => 105 case 6 => 109
      case 7 => 117 case 8 => 122 case 9 => 128 case 10 => 136 case 11 => 142 case _ => 152)
    case 3 => (match i % 13
      case 0 => 159 case 1 => 162 case 2 => 162 case 3 => 165 case 4 => 167 case 5 => 167 case 6 => 171
      case 7 => 176 case 8 => 179 case 9 => 184 case 10 => 184 case 11 => 188 case _ => 192)
    case 4 => (match i % 13
      case 0 => 199 case 1 => 204 case 2 => 209 case 3 => 212 case 4 => 218 case 5 => 221 case 6 => 225
      case 7 => 234 case 8 => 240 case 9 => 240 case 10 => 240 case 11 => 243 case _ => 246)
    case 5 => (match i % 13
      case 0 => 250 case 1 => 251 case 2 => 255 case 3 => 261 case 4 => 265 case 5 => 272 case 6 => 278
      case 7 => 290 case 8 => 296 case 9 => 305 case 10 => 307 case 11 => 313 case _ => 318)
    case 6 => (match i % 13
      case 0 => 320 case 1 => 327 case 2 => 332 case 3 => 337 case 4 => 343 case 5 => 349 case 6 => 354
      case 7 => 358 case 8 => 361 case 9 => 367 case 10 => 371 case 11 => 378 case _ => 380)
    case 7 => (match i % 13
      case 0 => 387 case 1 => 389 case 2 => 391 case 3 => 400 case 4 => 404 case 5 => 410 case 6 => 416
      case 7 => 424 case 8 => 429 case 9 => 429 case 10 => 445 case 11 => 452 case _ => 459)
    case 8 => (match i % 13
      case 0 => 460 case 1 => 467 case 2 => 471 case 3 => 475 case 4 => 479 case 5 => 483 case 6 => 486
      case 7 => 488 case 8 => 490 case 9 => 496 case 10 => 500 case 11 => 508 case _ => 513)
    case _ => (match i % 13
      case 0 => 521 case 1 => 524 case 2 => 529 case 3 => 534 case 4 => 540 case 5 => 544 case _ => 549)
  }

  /** The token code of each keyword. */
  function ACode(i: nat): (x: nat)
    requires i < N_KEYWORD
  {
    match i / 13
    case 0 => (match i % 13
      case 0 => TK_REINDEX case 1 => TK_INDEXED case 2 => TK_INDEX case 3 => TK_DESC
      case 4 => TK_ESCAPE case 5 => TK_EACH case 6 => TK_CHECK case 7 => TK_KEY
      case 8 => TK_BEFORE case 9 => TK_FOREIGN case 10 => TK_FOR case 11 => TK_IGNORE
      case _ => TK_LIKE_KW)
    case 1 => (match i % 13
      case 0 => TK_EXPLAIN case 1 => TK_INSTEAD case 2 => TK_ADD case 3 => TK_DATABASE
      case 4 => TK_AS case 5 => TK_SELECT case 6 => TK_TABLE case 7 => TK_JOIN_KW
      case 8 => TK_THEN case 9 => TK_END case 10 => TK_DEFERRABLE case 11 => TK_ELSE
      case _ => TK_EXCEPT)
    case 2 => (match i % 13
      case 0 => TK_TRANSACTION case 1 => TK_ACTION case 2 => TK_ON case 3 => TK_JOIN_KW
      case 4 => TK_ALTER case 5 => TK_RAISE case 6 => TK_EXCLUSIVE case 7 => TK_EXISTS
      case 8 => TK_SAVEPOINT case 9 => TK_INTERSECT case 10 => TK_TRIGGER case 11 => TK_REFERENCES
      case _ => TK_CONSTRAINT)
    case 3 => (match i % 13
      case 0 => TK_INTO case 1 => TK_OFFSET case 2 => TK_OF case 3 => TK_SET
      case 4 => TK_TEMP case 5 => TK_TEMP case 6 => TK_OR case 7 => TK_UNIQUE
      case 8 => TK_QUERY case 9 => TK_WITHOUT case 10 => TK_WITH case 11 => TK_JOIN_KW
      case _ => TK_RELEASE)
    case 4 => (match i % 13
      case 0 => TK_ATTACH case 1 => TK_HAVING case 2 => TK_GROUP case 3 => TK_UPDATE
      case 4 => TK_BEGIN case 5 => TK_JOIN_KW case 6 => TK_RECURSIVE case 7 => TK_BETWEEN
      case 8 => TK_NOTNULL case 9 => TK_NOT case 10 => TK_NO case 11 => TK_NULL
      case _ => TK_LIKE_KW)
    case 5 => (match i % 13
      case 0 => TK_CASCADE case 1 => TK_ASC case 2 => TK_DELETE case 3 => TK_CASE
      case 4 => TK_COLLATE case 5 => TK_CREATE case 6 => TK_CTIME_KW case 7 => TK_DETACH
      case 8 => TK_IMMEDIATE case 9 => TK_JOIN case 10 => TK_INSERT case 11 => TK_MATCH
      case _ => TK_PLAN)
    case 6 => (match i % 13
      case 0 => TK_ANALYZE case 1 => TK_PRAGMA case 2 => TK_ABORT case 3 => TK_VALUES
      case 4 => TK_VIRTUAL case 5 => TK_LIMIT case 6 => TK_WHEN case 7 => TK_WHERE
      case 8 => TK_RENAME case 9 => TK_AFTER case 10 => TK_REPLACE case 11 => TK_AND
      case _ => TK_DEFAULT)
    case 7 => (match i % 13
      case 0 => TK_AUTOINCR case 1 => TK_TO case 2 => TK_IN case 3 => TK_CAST
      case 4 => TK_COLUMNKW case 5 => TK_COMMIT case 6 => TK_CONFLICT case 7 => TK_JOIN_KW
      case 8 => TK_CTIME_KW case 9 => TK_CTIME_KW case 10 => TK_PRIMARY case 11 => TK_DEFERRED
      case _ => TK_DISTINCT)
    case 8 => (match i % 13
      case 0 => TK_IS case 1 => TK_DROP case 2 => TK_FAIL case 3 => TK_FROM
      case 4 => TK_JOIN_KW case 5 => TK_LIKE_KW case 6 => TK_BY case 7 => TK_IF
      case 8 => TK_ISNULL case 9 => TK_ORDER case 10 => TK_RESTRICT case 11 => TK_JOIN_KW
      case _ => TK_ROLLBACK)
    case _ => (match i % 13
      case 0 => TK_ROW case 1 => TK_UNION case 2 => TK_USING case 3 => TK_VACUUM
      case 4 => TK_VIEW case 5 => TK_INITIALLY case _ => TK_ALL)
  }

  /** The keywords, spelled out. */
  function Word(i: nat): (x: string)
    requires i < N_KEYWORD
  {
    match i / 13
    case 0 => (match i % 13
      case 0 => "REINDEX" case 1 => "INDEXED" case 2 => "INDEX" case 3 => "DESC"
      case 4 => "ESCAPE" case 5 => "EACH" case 6 => "CHECK" case 7 => "KEY"
      case 8 => "BEFORE" case 9 => "FOREIGN" case 10 => "FOR" case 11 => "IGNORE"
      case _ => "REGEXP")
    case 1 => (match i % 13
      case 0 => "EXPLAIN" case 1 => "INSTEAD" case 2 => "ADD" case 3 => "DATABASE"
      case 4 => "AS" case 5 => "SELECT" case 6 => "TABLE" case 7 => "LEFT"
      case 8 => "THEN" case 9 => "END" case 10 => "DEFERRABLE" case 11 => "ELSE"
      case _ => "EXCEPT")
    case 2 => (match i % 13
      case 0 => "TRANSACTION" case 1 => "ACTION" case 2 => "ON" case 3 => "NATURAL"
      case 4 => "ALTER" case 5 => "RAISE" case 6 => "EXCLUSIVE" case 7 => "EXISTS"
      case 8 => "SAVEPOINT" case 9 => "INTERSECT" case 10 => "TRIGGER" case 11 => "REFERENCES"
      case _ => "CONSTRAINT")
    case 3 => (match i % 13
      case 0 => "INTO" case 1 => "OFFSET" case 2 => "OF" case 3 => "SET"
      case 4 => "TEMPORARY" case 5 => "TEMP" case 6 => "OR" case 7 => "UNIQUE"
      case 8 => "QUERY" case 9 => "WITHOUT" case 10 => "WITH" case 11 => "OUTER"
      case _ => "RELEASE")
    case 4 => (match i % 13
      case 0 => "ATTACH" case 1 => "HAVING" case 2 => "GROUP" case 3 => "UPDATE"
      case 4 => "BEGIN" case 5 => "INNER" case 6 => "RECURSIVE" case 7 => "BETWEEN"
      case 8 => "NOTNULL" case 9 => "NOT" case 10 => "NO" case 11 => "NULL"
      case _ => "LIKE")
    case 5 => (match i % 13
      case 0 => "CASCADE" case 1 => "ASC" case 2 => "DELETE" case 3 => "CASE"
      case 4 => "COLLATE" case 5 => "CREATE" case 6 => "CURRENT_DATE" case 7 => "DETACH"
      case 8 => "IMMEDIATE" case 9 => "JOIN" case 10 => "INSERT" case 11 => "MATCH"
      case _ => "PLAN")
    case 6 => (match i % 13
      case 0 => "ANALYZE" case 1 => "PRAGMA" case 2 => "ABORT" case 3 => "VALUES"
      case 4 => "VIRTUAL" case 5 => "LIMIT" case 6 => "WHEN" case 7 => "WHERE"
      case 8 => "RENAME" case 9 => "AFTER" case 10 => "REPLACE" case 11 => "AND"
      case _ => "DEFAULT")
    case 7 => (match i % 13
      case 0 => "AUTOINCREMENT" case 1 => "TO" case 2 => "IN" case 3 => "CAST"
      case 4 => "COLUMN" case 5 => "COMMIT" case 6 => "CONFLICT" case 7 => "CROSS"
      case 8 => "CURRENT_TIMESTAMP" case 9 => "CURRENT_TIME" case 10 => "PRIMARY" case 11 => "DEFERRED"
      case _ => "DISTINCT")
    case 8 => (match i % 13
      case 0 => "IS" case 1 => "DROP" case 2 => "FAIL" case 3 => "FROM"
      case 4 => "FULL" case 5 => "GLOB" case 6 => "BY" case 7 => "IF"
      case 8 => "ISNULL" case 9 => "ORDER" case 10 => "RESTRICT" case 11 => "RIGHT"
      case _ => "ROLLBACK")
    case _ => (match i % 13
      case 0 => "ROW" case 1 => "UNION" case 2 => "USING" case 3 => "VACUUM"
      case 4 => "VIEW" case 5 => "INITIALLY" case _ => "ALL")
  }

  // ----- Not in the source: what the generator knew when it built the chains -----

  /** The first letter of each keyword. */
  function FirstChar(i: nat): (x: char)
    requires i < N_KEYWORD
  {
    match i / 13
    case 0 => (match i % 13
      case 0 => 'R' case 1 => 'I' case 2 => 'I' case 3 => 'D' case 4 => 'E' case 5 => 'E' case 6 => 'C'
      case 7 => 'K' case 8 => 'B' case 9 => 'F' case 10 => 'F' case 11 => 'I' case _ => 'R')
    case 1 => (match i % 13
      case 0 => 'E' case 1 => 'I' case 2 => 'A' case 3 => 'D' case 4 => 'A' case 5 => 'S' case 6 => 'T'
      case 7 => 'L' case 8 => 'T' case 9 => 'E' case 10 => 'D' case 11 => 'E' case _ => 'E')
    case 2 => (match i % 13
      case 0 => 'T' case 1 => 'A' case 2 => 'O' case 3 => 'N' case 4 => 'A' case 5 => 'R' case 6 => 'E'
      case 7 => 'E' case 8 => 'S' case 9 => 'I' case 10 => 'T' case 11 => 'R' case _ => 'C')
    case 3 => (match i % 13
      case 0 => 'I' case 1 => 'O' case 2 => 'O' case 3 => 'S' case 4 => 'T' case 5 => 'T' case 6 => 'O'
      case 7 => 'U' case 8 => 'Q' case 9 => 'W' case 10 => 'W' case 11 => 'O' case _ => 'R')
    case 4 => (match i % 13
      case 0 => 'A' case 1 => 'H' case 2 => 'G' case 3 => 'U' case 4 => 'B' case 5 => 'I' case 6 => 'R'
      case 7 => 'B' case 8 => 'N' case 9 => 'N' case 10 => 'N' case 11 => 'N' case _ => 'L')
    case 5 => (match i % 13
      case 0 => 'C' case 1 => 'A' case 2 => 'D' case 3 => 'C' case 4 => 'C' case 5 => 'C' case 6 => 'C'
      case 7 => 'D' case 8 => 'I' case 9 => 'J' case 10 => 'I' case 11 => 'M' case _ => 'P')
    case 6 => (match i % 13
      case 0 => 'A' case 1 => 'P' case 2 => 'A' case 3 => 'V' case 4 => 'V' case 5 => 'L' case 6 => 'W'
      case 7 => 'W' case 8 => 'R' case 9 => 'A' case 10 => 'R' case 11 => 'A' case _ => 'D')
    case 7 => (match i % 13
      case 0 => 'A' case 1 => 'T' case 2 => 'I' case 3 => 'C' case 4 => 'C' case 5 => 'C' case 6 => 'C'
      case 7 => 'C' case 8 => 'C' case 9 => 'C' case 10 => 'P' case 11 => 'D' case _ => 'D')
    case 8 => (match i % 13
      case 0 => 'I' case 1 => 'D' case 2 => 'F' case 3 => 'F' case 4 => 'F' case 5 => 'G' case 6 => 'B'
      case 7 => 'I' case 8 => 'I' case 9 => 'O' case 10 => 'R' case 11 => 'R' case _ => 'R')
    case _ => (match i % 13
      case 0 => 'R' case 1 => 'U' case 2 => 'U' case 3 => 'V' case 4 => 'V' case 5 => 'I' case _ => 'A')
  }

  /** The last letter of each keyword. */
  function LastChar(i: nat): (x: char)
    requires i < N_KEYWORD
  {
    match i / 13
    case 0 => (match i % 13
      case 0 => 'X' case 1 => 'D' case 2 => 'X' case 3 => 'C' case 4 => 'E' case 5 => 'H' case 6 => 'K'
      case 7 => 'Y' case 8 => 'E' case 9 => 'N' case 10 => 'R' case 11 => 'E' case _ => 'P')
    case 1 => (match i % 13
      case 0 => 'N' case 1 => 'D' case 2 => 'D' case 3 => 'E' case 4 => 'S' case 5 => 'T' case 6 => 'E'
      case 7 => 'T' case 8 => 'N' case 9 => 'D' case 10 => 'E' case 11 => 'E' case _ => 'T')
    case 2 => (match i % 13
      case 0 => 'N' case 1 => 'N' case 2 => 'N' case 3 => 'L' case 4 => 'R' case 5 => 'E' case 6 => 'E'
      case 7 => 'S' case 8 => 'T' case 9 => 'T' case 10 => 'R' case 11 => 'S' case _ => 'T')
    case 3 => (match i % 13
      case 0 => 'O' case 1 => 'T' case 2 => 'F' case 3 => 'T' case 4 => 'Y' case 5 => 'P' case 6 => 'R'
      case 7 => 'E' case 8 => 'Y' case 9 => 'T' case 10 => 'H' case 11 => 'R' case _ => 'E')
    case 4 => (match i % 13
      case 0 => 'H' case 1 => 'G' case 2 => 'P' case 3 => 'E' case 4 => 'N' case 5 => 'R' case 6 => 'E'
      case 7 => 'N' case 8 => 'L' case 9 => 'T' case 10 => 'O' case 11 => 'L' case _ => 'E')
    case 5 => (match i % 13
      case 0 => 'E' case 1 => 'C' case 2 => 'E' case 3 => 'E' case 4 => 'E' case 5 => 'E' case 6 => 'E'
      case 7 => 'H' case 8 => 'E' case 9 => 'N' case 10 => 'T' case 11 => 'H' case _ => 'N')
    case 6 => (match i % 13
      case 0 => 'E' case 1 => 'A' case 2 => 'T' case 3 => 'S' case 4 => 'L' case 5 => 'T' case 6 => 'N'
      case 7 => 'E' case 8 => 'E' case 9 => 'R' case 10 => 'E' case 11 => 'D' case _ => 'T')
    case 7 => (match i % 13
      case 0 => 'T' case 1 => 'O' case 2 => 'N' case 3 => 'T' case 4 => 'N' case 5 => 'T' case 6 => 'T'
      case 7 => 'S' case 8 => 'P' case 9 => 'E' case 10 => 'Y' case 11 => 'D' case _ => 'T')
    case 8 => (match i % 13
      case 0 => 'S' case 1 => 'P' case 2 => 'L' case 3 => 'M' case 4 => 'L' case 5 => 'B' case 6 => 'Y'
      case 7 => 'F' case 8 => 'L' case 9 => 'R' case 10 => 'T' case 11 => 'T' case _ => 'K')
    case _ => (match i % 13
      case 0 => 'W' case 1 => 'N' case 2 => 'G' case 3 => 'M' case 4 => 'W' case 5 => 'Y' case _ => 'L')
  }

  /** The first byte of each keyword. */
  function First(i: nat): (x: bv8)
    requires i < N_KEYWORD
    ensures 0x41 <= x <= 0x5A
  {
    match i / 13
    case 0 => (match i % 13
      case 0 => 0x52 case 1 => 0x49 case 2 => 0x49 case 3 => 0x44 case 4 => 0x45 case 5 => 0x45 case 6 => 0x43
      case 7 => 0x4B case 8 => 0x42 case 9 => 0x46 case 10 => 0x46 case 11 => 0x49 case _ => 0x52)
    case 1 => (match i % 13
      case 0 => 0x45 case 1 => 0x49 case 2 => 0x41 case 3 => 0x44 case 4 => 0x41 case 5 => 0x53 case 6 => 0x54
      case 7 => 0x4C case 8 => 0x54 case 9 => 0x45 case 10 => 0x44 case 11 => 0x45 case _ => 0x45)
    case 2 => (match i % 13
      case 0 => 0x54 case 1 => 0x41 case 2 => 0x4F case 3 => 0x4E case 4 => 0x41 case 5 => 0x52 case 6 => 0x45
      case 7 => 0x45 case 8 => 0x53 case 9 => 0x49 case 10 => 0x54 case 11 => 0x52 case _ => 0x43)
    case 3 => (match i % 13
      case 0 => 0x49 case 1 => 0x4F case 2 => 0x4F case 3 => 0x53 case 4 => 0x54 case 5 => 0x54 case 6 => 0x4F
      case 7 => 0x55 case 8 => 0x51 case 9 => 0x57 case 10 => 0x57 case 11 => 0x4F case _ => 0x52)
    case 4 => (match i % 13
      case 0 => 0x41 case 1 => 0x48 case 2 => 0x47 case 3 => 0x55 case 4 => 0x42 case 5 => 0x49 case 6 => 0x52
      case 7 => 0x42 case 8 => 0x4E case 9 => 0x4E case 10 => 0x4E case 11 => 0x4E case _ => 0x4C)
    case 5 => (match i % 13
      case 0 => 0x43 case 1 => 0x41 case 2 => 0x44 case 3 => 0x43 case 4 => 0x43 case 5 => 0x43 case 6 => 0x43
      case 7 => 0x44 case 8 => 0x49 case 9 => 0x4A case 10 => 0x49 case 11 => 0x4D case _ => 0x50)
    case 6 => (match i % 13
      case 0 => 0x41 case 1 => 0x50 case 2 => 0x41 case 3 => 0x56 case 4 => 0x56 case 5 => 0x4C case 6 => 0x57
      case 7 => 0x57 case 8 => 0x52 case 9 => 0x41 case 10 => 0x52 case 11 => 0x41 case _ => 0x44)
    case 7 => (match i % 13
      case 0 => 0x41 case 1 => 0x54 case 2 => 0x49 case 3 => 0x43 case 4 => 0x43 case 5 => 0x43 case 6 => 0x43
      case 7 => 0x43 case 8 => 0x43 case 9 => 0x43 case 10 => 0x50 case 11 => 0x44 case _ => 0x44)
    case 8 => (match i % 13
      case 0 => 0x49 case 1 => 0x44 case 2 => 0x46 case 3 => 0x46 case 4 => 0x46 case 5 => 0x47 case 6 => 0x42
      case 7 => 0x49 case 8 => 0x49 case 9 => 0x4F case 10 => 0x52 case 11 => 0x52 case _ => 0x52)
    case _ => (match i % 13
      case 0 => 0x52 case 1 => 0x55 case 2 => 0x55 case 3 => 0x56 case 4 => 0x56 case 5 => 0x49 case _ => 0x41)
  }

  /** The last byte of each keyword. */
  function Last(i: nat): (x: bv8)
    requires i < N_KEYWORD
    ensures 0x41 <= x <= 0x5A
  {
    match i / 13
    case 0 => (match i % 13
      case 0 => 0x58 case 1 => 0x44 case 2 => 0x58 case 3 => 0x43 case 4 => 0x45 case 5 => 0x48 case 6 => 0x4B
      case 7 => 0x59 case 8 => 0x45 case 9 => 0x4E case 10 => 0x52 case 11 => 0x45 case _ => 0x50)
    case 1 => (match i % 13
      case 0 => 0x4E case 1 => 0x44 case 2 => 0x44 case 3 => 0x45 case 4 => 0x53 case 5 => 0x54 case 6 => 0x45
      case 7 => 0x54 case 8 => 0x4E case 9 => 0x44 case 10 => 0x45 case 11 => 0x45 case _ => 0x54)
    case 2 => (match i % 13
      case 0 => 0x4E case 1 => 0x4E case 2 => 0x4E case 3 => 0x4C case 4 => 0x52 case 5 => 0x45 case 6 => 0x45
      case 7 => 0x53 case 8 => 0x54 case 9 => 0x54 case 10 => 0x52 case 11 => 0x53 case _ => 0x54)
    case 3 => (match i % 13
      case 0 => 0x4F case 1 => 0x54 case 2 => 0x46 case 3 => 0x54 case 4 => 0x59 case 5 => 0x50 case 6 => 0x52
      case 7 => 0x45 case 8 => 0x59 case 9 => 0x54 case 10 => 0x48 case 11 => 0x52 case _ => 0x45)
    case 4 => (match i % 13
      case 0 => 0x48 case 1 => 0x47 case 2 => 0x50 case 3 => 0x45 case 4 => 0x4E case 5 => 0x52 case 6 => 0x45
      case 7 => 0x4E case 8 => 0x4C case 9 => 0x54 case 10 => 0x4F case 11 => 0x4C case _ => 0x45)
    case 5 => (match i % 13
      case 0 => 0x45 case 1 => 0x43 case 2 => 0x45 case 3 => 0x45 case 4 => 0x45 case 5 => 0x45 case 6 => 0x45
      case 7 => 0x48 case 8 => 0x45 case 9 => 0x4E case 10 => 0x54 case 11 => 0x48 case _ => 0x4E)
    case 6 => (match i % 13
      case 0 => 0x45 case 1 => 0x41 case 2 => 0x54 case 3 => 0x53 case 4 => 0x4C case 5 => 0x54 case 6 => 0x4E
      case 7 => 0x45 case 8 => 0x45 case 9 => 0x52 case 10 => 0x45 case 11 => 0x44 case _ => 0x54)
    case 7 => (match i % 13
      case 0 => 0x54 case 1 => 0x4F case 2 => 0x4E case 3 => 0x54 case 4 => 0x4E case 5 => 0x54 case 6 => 0x54
      case 7 => 0x53 case 8 => 0x50 case 9 => 0x45 case 10 => 0x59 case 11 => 0x44 case _ => 0x54)
    case 8 => (match i % 13
      case 0 => 0x53 case 1 => 0x50 case 2 => 0x4C case 3 => 0x4D case 4 => 0x4C case 5 => 0x42 case 6 => 0x59
      case 7 => 0x46 case 8 => 0x4C case 9 => 0x52 case 10 => 0x54 case 11 => 0x54 case _ => 0x4B)
    case _ => (match i % 13
      case 0 => 0x57 case 1 => 0x4E case 2 => 0x47 case 3 => 0x4D case 4 => 0x57 case 5 => 0x59 case _ => 0x4C)
  }

  /** The length of each keyword in 32 bits. */
  function KeyLen(i: nat): (x: bv32)
    requires i < N_KEYWORD
  {
    match i / 13
    case 0 => (match i % 13
      case 0 => 7 case 1 => 7 case 2 => 5 case 3 => 4 case 4 => 6 case 5 => 4 case 6 => 5
      case 7 => 3 case 8 => 6 case 9 => 7 case 10 => 3 case 11 => 6 case _ => 6)
    case 1 => (match i % 13
      case 0 => 7 case 1 => 7 case 2 => 3 case 3 => 8 case 4 => 2 case 5 => 6 case 6 => 5
      case 7 => 4 case 8 => 4 case 9 => 3 case 10 => 10 case 11 => 4 case _ => 6)
    case 2 => (match i % 13
      case 0 => 11 case 1 => 6 case 2 => 2 case 3 => 7 case 4 => 5 case 5 => 5 case 6 => 9
      case 7 => 6 case 8 => 9 case 9 => 9 case 10 => 7 case 11 => 10 case _ => 10)
    case 3 => (match i % 13
      case 0 => 4 case 1 => 6 case 2 => 2 case 3 => 3 case 4 => 9 case 5 => 4 case 6 => 2
      case 7 => 6 case 8 => 5 case 9 => 7 case 10 => 4 case 11 => 5 case _ => 7)
    case 4 => (match i % 13
      case 0 => 6 case 1 => 6 case 2 => 5 case 3 => 6 case 4 => 5 case 5 => 5 case 6 => 9
      case 7 => 7 case 8 => 7 case 9 => 3 case 10 => 2 case 11 => 4 case _ => 4)
    case 5 => (match i % 13
      case 0 => 7 case 1 => 3 case 2 => 6 case 3 => 4 case 4 => 7 case 5 => 6 case 6 => 12
      case 7 => 6 case 8 => 9 case 9 => 4 case 10 => 6 case 11 => 5 case _ => 4)
    case 6 => (match i % 13
      case 0 => 7 case 1 => 6 case 2 => 5 case 3 => 6 case 4 => 7 case 5 => 5 case 6 => 4
      case 7 => 5 case 8 => 6 case 9 => 5 case 10 => 7 case 11 => 3 case _ => 7)
    case 7 => (match i % 13
      case 0 => 13 case 1 => 2 case 2 => 2 case 3 => 4 case 4 => 6 case 5 => 6 case 6 => 8
      case 7 => 5 case 8 => 17 case 9 => 12 case 10 => 7 case 11 => 8 case _ => 8)
    case 8 => (match i % 13
      case 0 => 2 case 1 => 4 case 2 => 4 case 3 => 4 case 4 => 4 case 5 => 4 case 6 => 2
      case 7 => 2 case 8 => 6 case 9 => 5 case 10 => 8 case 11 => 5 case _ => 8)
    case _ => (match i % 13
      case 0 => 3 case 1 => 5 case 2 => 5 case 3 => 6 case 4 => 4 case 5 => 9 case _ => 3)
  }

  /** The bits of each keyword before they are reduced to a hash value. */
  function KeyMix(i: nat): (x: bv32)
    requires i < N_KEYWORD
  {
    match i / 13
    case 0 => (match i % 13
      case 0 => 167 case 1 => 143 case 2 => 201 case 3 => 189 case 4 => 189 case 5 => 168 case 6 => 200
      case 7 => 196 case 8 => 161 case 9 => 213 case 10 => 205 case 11 => 141 case _ => 158)
    case 1 => (match i % 13
      case 0 => 217 case 1 => 143 case 2 => 171 case 3 => 183 case 4 => 223 case 5 => 150 case 6 => 250
      case 7 => 232 case 8 => 158 case 9 => 187 case 10 => 181 case 11 => 191 case _ => 206)
    case 2 => (match i % 13
      case 0 => 145 case 1 => 200 case 2 => 244 case 3 => 251 case 4 => 215 case 5 => 226 case 6 => 178
      case 7 => 203 case 8 => 153 case 9 => 241 case 10 => 129 case 11 => 155 case _ => 218)
    case 3 => (match i % 13
      case 0 => 237 case 1 => 230 case 2 => 140 case 3 => 147 case 4 => 178 case 5 => 132 case 6 => 232
      case 7 => 253 case 8 => 170 case 9 => 135 case 10 => 224 case 11 => 239 case _ => 224)
    case 4 => (match i % 13
      case 0 => 186 case 1 => 147 case 2 => 201 case 3 => 253 case 4 => 199 case 5 => 247 case 6 => 238
      case 7 => 197 case 8 => 251 case 9 => 231 case 10 => 247 case 11 => 248 case _ => 155)
    case 5 => (match i % 13
      case 0 => 164 case 1 => 174 case 2 => 185 case 3 => 167 case 4 => 164 case 5 => 165 case 6 => 175
      case 7 => 174 case 8 => 130 case 9 => 230 case 10 => 254 case 11 => 137 case _ => 142)
    case 6 => (match i % 13
      case 0 => 172 case 1 => 229 case 2 => 221 case 3 => 135 case 4 => 155 case 5 => 233 case 6 => 146
      case 7 => 246 case 8 => 225 case 9 => 215 case 10 => 224 case 11 => 171 case _ => 203)
    case 7 => (match i % 13
      case 0 => 213 case 1 => 159 case 2 => 236 case 3 => 212 case 4 => 192 case 5 => 214 case 6 => 216
      case 7 => 208 case 8 => 205 case 9 => 175 case 10 => 172 case 11 => 180 case _ => 196)
    case 8 => (match i % 13
      case 0 => 255 case 1 => 196 case 2 => 216 case 3 => 219 case 4 => 216 case 5 => 190 case 6 => 225
      case 7 => 148 case 8 => 230 case 9 => 239 case 10 => 156 case 11 => 145 case _ => 129)
    case _ => (match i % 13
      case 0 => 174 case 1 => 155 case 2 => 228 case 3 => 153 case 4 => 185 case 5 => 198 case _ => 195)
  }

  /** What the first byte of each keyword adds to them. */
  function KeyFour(i: nat): (x: bv32)
    requires i < N_KEYWORD
  {
    match i / 13
    case 0 => (match i % 13
      case 0 => 456 case 1 => 420 case 2 => 420 case 3 => 400 case 4 => 404 case 5 => 404 case 6 => 396
      case 7 => 428 case 8 => 392 case 9 => 408 case 10 => 408 case 11 => 420 case _ => 456)
    case 1 => (match i % 13
      case 0 => 404 case 1 => 420 case 2 => 388 case 3 => 400 case 4 => 388 case 5 => 460 case 6 => 464
      case 7 => 432 case 8 => 464 case 9 => 404 case 10 => 400 case 11 => 404 case _ => 404)
    case 2 => (match i % 13
      case 0 => 464 case 1 => 388 case 2 => 444 case 3 => 440 case 4 => 388 case 5 => 456 case 6 => 404
      case 7 => 404 case 8 => 460 case 9 => 420 case 10 => 464 case 11 => 456 case _ => 396)
    case 3 => (match i % 13
      case 0 => 420 case 1 => 444 case 2 => 444 case 3 => 460 case 4 => 464 case 5 => 464 case 6 => 444
      case 7 => 468 case 8 => 452 case 9 => 476 case 10 => 476 case 11 => 444 case _ => 456)
    case 4 => (match i % 13
      case 0 => 388 case 1 => 416 case 2 => 412 case 3 => 468 case 4 => 392 case 5 => 420 case 6 => 456
      case 7 => 392 case 8 => 440 case 9 => 440 case 10 => 440 case 11 => 440 case _ => 432)
    case 5 => (match i % 13
      case 0 => 396 case 1 => 388 case 2 => 400 case 3 => 396 case 4 => 396 case 5 => 396 case 6 => 396
      case 7 => 400 case 8 => 420 case 9 => 424 case 10 => 420 case 11 => 436 case _ => 448)
    case 6 => (match i % 13
      case 0 => 388 case 1 => 448 case 2 => 388 case 3 => 472 case 4 => 472 case 5 => 432 case 6 => 476
      case 7 => 476 case 8 => 456 case 9 => 388 case 10 => 456 case 11 => 388 case _ => 400)
    case 7 => (match i % 13
      case 0 => 388 case 1 => 464 case 2 => 420 case 3 => 396 case 4 => 396 case 5 => 396 case 6 => 396
      case 7 => 396 case 8 => 396 case 9 => 396 case 10 => 448 case 11 => 400 case _ => 400)
    case 8 => (match i % 13
      case 0 => 420 case 1 => 400 case 2 => 408 case 3 => 408 case 4 => 408 case 5 => 412 case 6 => 392
      case 7 => 420 case 8 => 420 case 9 => 444 case 10 => 456 case 11 => 456 case _ => 456)
    case _ => (match i % 13
      case 0 => 456 case 1 => 468 case 2 => 468 case 3 => 472 case 4 => 472 case 5 => 420 case _ => 388)
  }

  /** What the last byte of each keyword adds to them. */
  function KeyThree(i: nat): (x: bv32)
    requires i < N_KEYWORD
  {
    match i / 13
    case 0 => (match i % 13
      case 0 => 360 case 1 => 300 case 2 => 360 case 3 => 297 case 4 => 303 case 5 => 312 case 6 => 321
      case 7 => 363 case 8 => 303 case 9 => 330 case 10 => 342 case 11 => 303 case _ => 336)
    case 1 => (match i % 13
      case 0 => 330 case 1 => 300 case 2 => 300 case 3 => 303 case 4 => 345 case 5 => 348 case 6 => 303
      case 7 => 348 case 8 => 330 case 9 => 300 case 10 => 303 case 11 => 303 case _ => 348)
    case 2 => (match i % 13
      case 0 => 330 case 1 => 330 case 2 => 330 case 3 => 324 case 4 => 342 case 5 => 303 case 6 => 303
      case 7 => 345 case 8 => 348 case 9 => 348 case 10 => 342 case 11 => 345 case _ => 348)
    case 3 => (match i % 13
      case 0 => 333 case 1 => 348 case 2 => 306 case 3 => 348 case 4 => 363 case 5 => 336 case 6 => 342
      case 7 => 303 case 8 => 363 case 9 => 348 case 10 => 312 case 11 => 342 case _ => 303)
    case 4 => (match i % 13
      case 0 => 312 case 1 => 309 case 2 => 336 case 3 => 303 case 4 => 330 case 5 => 342 case 6 => 303
      case 7 => 330 case 8 => 324 case 9 => 348 case 10 => 333 case 11 => 324 case _ => 303)
    case 5 => (match i % 13
      case 0 => 303 case 1 => 297 case 2 => 303 case 3 => 303 case 4 => 303 case 5 => 303 case 6 => 303
      case 7 => 312 case 8 => 303 case 9 => 330 case 10 => 348 case 11 => 312 case _ => 330)
    case 6 => (match i % 13
      case 0 => 303 case 1 => 291 case 2 => 348 case 3 => 345 case 4 => 324 case 5 => 348 case 6 => 330
      case 7 => 303 case 8 => 303 case 9 => 342 case 10 => 303 case 11 => 300 case _ => 348)
    case 7 => (match i % 13
      case 0 => 348 case 1 => 333 case 2 => 330 case 3 => 348 case 4 => 330 case 5 => 348 case 6 => 348
      case 7 => 345 case 8 => 336 case 9 => 303 case 10 => 363 case 11 => 300 case _ => 348)
    case 8 => (match i % 13
      case 0 => 345 case 1 => 336 case 2 => 324 case 3 => 327 case 4 => 324 case 5 => 294 case 6 => 363
      case 7 => 306 case 8 => 324 case 9 => 342 case 10 => 348 case 11 => 348 case _ => 321)
    case _ => (match i % 13
      case 0 => 357 case 1 => 330 case 2 => 309 case 3 => 327 case 4 => 357 case 5 => 363 case _ => 324)
  }

  /** The hash value of each keyword. */
  function KeyHash(i: nat): (x: nat)
    requires i < N_KEYWORD
    ensures x < N_HASH
  {
    match i / 13
    case 0 => (match i % 13
      case 0 => 40 case 1 => 16 case 2 => 74 case 3 => 62 case 4 => 62 case 5 => 41 case 6 => 73
      case 7 => 69 case 8 => 34 case 9 => 86 case 10 => 78 case 11 => 14 case _ => 31)
    case 1 => (match i % 13
      case 0 => 90 case 1 => 16 case 2 => 44 case 3 => 56 case 4 => 96 case 5 => 23 case 6 => 123
      case 7 => 105 case 8 => 31 case 9 => 60 case 10 => 54 case 11 => 64 case _ => 79)
    case 2 => (match i % 13
      case 0 => 18 case 1 => 73 case 2 => 117 case 3 => 124 case 4 => 88 case 5 => 99 case 6 => 51
      case 7 => 76 case 8 => 26 case 9 => 114 case 10 => 2 case 11 => 28 case _ => 91)
    case 3 => (match i % 13
      case 0 => 110 case 1 => 103 case 2 => 13 case 3 => 20 case 4 => 51 case 5 => 5 case 6 => 105
      case 7 => 126 case 8 => 43 case 9 => 8 case 10 => 97 case 11 => 112 case _ => 97)
    case 4 => (match i % 13
      case 0 => 59 case 1 => 20 case 2 => 74 case 3 => 126 case 4 => 72 case 5 => 120 case 6 => 111
      case 7 => 70 case 8 => 124 case 9 => 104 case 10 => 120 case 11 => 121 case _ => 28)
    case 5 => (match i % 13
      case 0 => 37 case 1 => 47 case 2 => 58 case 3 => 40 case 4 => 37 case 5 => 38 case 6 => 48
      case 7 => 47 case 8 => 3 case 9 => 103 case 10 => 0 case 11 => 10 case _ => 15)
    case 6 => (match i % 13
      case 0 => 45 case 1 => 102 case 2 => 94 case 3 => 8 case 4 => 28 case 5 => 106 case 6 => 19
      case 7 => 119 case 8 => 98 case 9 => 88 case 10 => 97 case 11 => 44 case _ => 76)
    case 7 => (match i % 13
      case 0 => 86 case 1 => 32 case 2 => 109 case 3 => 85 case 4 => 65 case 5 => 87 case 6 => 89
      case 7 => 81 case 8 => 78 case 9 => 48 case 10 => 45 case 11 => 53 case _ => 69)
    case 8 => (match i % 13
      case 0 => 1 case 1 => 69 case 2 => 89 case 3 => 92 case 4 => 89 case 5 => 63 case 6 => 98
      case 7 => 21 case 8 => 103 case 9 => 112 case 10 => 29 case 11 => 18 case _ => 2)
    case _ => (match i % 13
      case 0 => 47 case 1 => 28 case 2 => 101 case 3 => 26 case 4 => 58 case 5 => 71 case _ => 68)
  }

  /** One plus the keyword before this one on its chain, 0 if it is the first. */
  function APrev(i: nat): (x: nat)
    requires i < N_KEYWORD
    ensures x <= N_KEYWORD
  {
    match i / 13
    case 0 => (match i % 13
      case 0 => 69 case 1 => 15 case 2 => 55 case 3 => 5 case 6 => 28 case 7 => 104 case 9 => 92
      case 10 => 100 case 12 => 22 case _ => 0)
    case 1 => (match i % 13
      case 2 => 90 case 7 => 46 case _ => 0)
    case 2 => (match i % 13
      case 0 => 116 case 3 => 61 case 4 => 88 case 6 => 44 case 7 => 91 case 8 => 121 case 10 => 117
      case 11 => 65 case _ => 0)
    case 3 => (match i % 13
      case 1 => 75 case 3 => 54 case 7 => 56 case 9 => 82 case 10 => 52 case 11 => 114 case 12 => 89
      case _ => 0)
    case 4 => (match i % 13
      case 5 => 63 case 12 => 83 case _ => 0)
    case 5 => (match i % 13
      case 0 => 70 case 1 => 73 case 2 => 122 case 6 => 101 case 7 => 118 case 9 => 113 case _ => 0)
    case 6 => (match i % 13
      case 0 => 102 case 4 => 119 case 8 => 111 case _ => 0)
    case 7 => (match i % 13
      case 6 => 107 case 12 => 106 case _ => 0)
    case 8 => (match i % 13
      case 2 => 109 case _ => 0)
    case _ => 0
  }

  /** The letter in which keywords of one hash value and one length differ. */
  function DiffAt(h: nat): (j: nat)
    ensures j <= 8
  {
    match h
    case 16 => 2 case 37 => 1 case 44 => 1 case 48 => 8 case 88 => 1 case 89 => 1 case 97 => 2
    case 112 => 1 case 124 => 1 case 126 => 1 case _ => 0
  }

  /** The keyword with a hash value, a length and that letter. */
  function Owner(h: nat, n: nat, c: char): nat {
    match h
    case 0 => 75 case 1 => 104 case 2 => (if n == 8 then 116 else 36) case 3 => 73 case 5 => 44
    case 8 => (if n == 6 then 81 else 48) case 10 => 76 case 13 => 41 case 14 => 11 case 15 => 77
    case 16 => (if n == 7 && c == 'S' then 14 else 1) case 18 => (if n == 5 then 115 else 26) case 19 => 84
    case 20 => (if n == 6 then 53 else 42) case 21 => 111 case 23 => 18
    case 26 => (if n == 6 then 120 else 34)
    case 28 => (if n == 5 then 118 else if n == 7 then 82 else if n == 4 then 64 else 37) case 29 => 114
    case 31 => (if n == 4 then 21 else 12) case 32 => 92 case 34 => 8
    case 37 => (if n == 7 && c == 'O' then 69 else 65) case 38 => 70 case 40 => (if n == 4 then 68 else 0)
    case 41 => 5 case 43 => 47 case 44 => (if n == 3 && c == 'N' then 89 else 15)
    case 45 => (if n == 7 && c == 'P' then 101 else 78)
    case 47 => (if n == 3 && c == 'R' then 117 else if n == 6 then 72 else 66)
    case 48 => (if n == 12 && c == 'T' then 100 else 71) case 51 => (if n == 9 && c == 'T' then 43 else 32)
    case 53 => 102 case 54 => 23 case 56 => 16 case 58 => (if n == 4 then 121 else 67) case 59 => 52
    case 60 => 22 case 62 => (if n == 6 then 4 else 3) case 63 => 109 case 64 => 24 case 65 => 95
    case 68 => 123 case 69 => (if n == 4 then 105 else if n == 8 then 103 else 7) case 70 => 59 case 71 => 122
    case 72 => 56 case 73 => (if n == 6 then 27 else 6) case 74 => (if n == 5 && c == 'G' then 54 else 2)
    case 76 => (if n == 7 then 90 else 33) case 78 => (if n == 17 then 99 else 10) case 79 => 25 case 81 => 98
    case 85 => 94 case 86 => (if n == 13 then 91 else 9) case 87 => 96
    case 88 => (if n == 5 && c == 'F' then 87 else 30)
    case 89 => (if n == 4 && c == 'U' then 108 else if n == 4 && c == 'A' then 106 else 97) case 90 => 13
    case 91 => 38 case 92 => 107 case 94 => 80 case 96 => 17
    case 97 => (if n == 7 && c == 'P' then 88 else if n == 7 && c == 'L' then 51 else 49)
    case 98 => (if n == 2 then 110 else 86) case 99 => 31 case 101 => 119 case 102 => 79
    case 103 => (if n == 6 && c == 'I' then 112 else if n == 4 then 74 else 40) case 104 => 61
    case 105 => (if n == 2 then 45 else 20) case 106 => 83 case 109 => 93 case 110 => 39 case 111 => 58
    case 112 => (if n == 5 && c == 'R' then 113 else 50) case 114 => 35 case 117 => 28 case 119 => 85
    case 120 => (if n == 2 then 62 else 57) case 121 => 63 case 123 => 19
    case 124 => (if n == 7 && c == 'O' then 60 else 29) case 126 => (if n == 6 && c == 'P' then 55 else 46)
    case _ => 0
  }
}
