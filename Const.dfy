/** The four fixed neighbour tables that parameterise the substitution and
    insertion mutations. Each maps a character to its ordered list of
    one-character substitutes, written here as a string. */
module Const {

  import opened CaseMap

  type Table = map<char, seq<char>>

  /** Keyboard adjacency of the letters. */
  const NeighboringLetters: Table := map[
    'a' := "qwsz",
    'b' := "vghn",
    'c' := "xdfv",
    'd' := "serfcx",
    'e' := "rdsw",
    'f' := "drtgvc",
    'g' := "ftyhbv",
    'h' := "nbgyuj",
    'i' := "okju",
    'j' := "huikmn",
    'k' := "jiolm",
    'l' := "kop",
    'm' := "njk",
    'n' := "bhjm",
    'o' := "iklp",
    'p' := "ol",
    'q' := "aw",
    'r' := "edft",
    's' := "azxdew",
    't' := "rfgy",
    'u' := "yhji",
    'v' := "cfgb",
    'w' := "qasde",
    'x' := "zsdc",
    'y' := "tghu",
    'z' := "asx"
  ]

  /** Adjacency of the keys of a numeric keypad. */
  const NeighboringNumpadDigits: Table := map[
    '0' := "12",
    '1' := "4520",
    '2' := "014563",
    '3' := "256",
    '4' := "78521",
    '5' := "78946123",
    '6' := "98523",
    '7' := "854",
    '8' := "74569",
    '9' := "856"
  ]

  /** Digits that look alike. */
  const VisuallySimilarDigits: Table := map[
    '0' := "689",
    '1' := "7",
    '2' := "7",
    '3' := "589",
    '4' := "9",
    '5' := "38",
    '6' := "08",
    '7' := "12",
    '8' := "0356",
    '9' := "034"
  ]

  /** Characters that look alike. The source writes one dictionary whose keys are
      the digits and some lower-case letters, followed by the upper-case letters
      `B` to `Z`; the model names the two halves of that literal. */
  const VisuallySimilarChars: Table := VisuallySimilarLowerChars + VisuallySimilarUpperChars

  const VisuallySimilarLowerChars: Table := map[
    '0' := "689oDOU",
    '1' := "7I",
    '2' := "7QZ",
    '3' := "589",
    '4' := "9U",
    '5' := "38S",
    '6' := "08bG",
    '7' := "12TZ",
    '8' := "0356BS",
    '9' := "034gq",
    'b' := "6",
    'c' := "e",
    'e' := "c",
    'g' := "9q",
    'i' := "I",
    'm' := "n",
    'n' := "mp",
    'o' := "0",
    'p' := "n",
    'q' := "9g",
    'u' := "v",
    'v' := "u",
    'y' := "z",
    'z' := "y"
  ]

  const VisuallySimilarUpperChars: Table := map[
    'B' := "8P",
    'C' := "G",
    'D' := "0O",
    'E' := "F",
    'F' := "7ER",
    'G' := "6C",
    'I' := "1iLT",
    'L' := "I",
    'M' := "N",
    'N' := "M",
    'O' := "0DU",
    'P' := "B",
    'Q' := "2",
    'S' := "58",
    'T' := "I7",
    'U' := "04OV",
    'V' := "UW",
    'W' := "U",
    'X' := "Y",
    'Y' := "5X",
    'Z' := "27"
  ]

  /** The keys of `table` are exactly the characters from `lo` to `hi`. */
  predicate KeysExactly(table: Table, lo: char, hi: char)
  {
    forall c :: c in table <==> lo <= c <= hi
  }

  /** Every list in `table` is non-empty and holds only characters from `lo` to `hi`. */
  predicate ListsWithin(table: Table, lo: char, hi: char)
  {
    forall c :: c in table ==> |table[c]| > 0 && forall k :: 0 <= k < |table[c]| ==> lo <= table[c][k] <= hi
  }

  /** Every list in `table` is non-empty and holds only ASCII letters and digits. */
  predicate ListsAlphanumeric(table: Table)
  {
    forall c :: c in table ==> |table[c]| > 0 && forall k :: 0 <= k < |table[c]| ==>
      '0' <= table[c][k] <= '9' || IsLowerAscii(table[c][k]) || IsUpperAscii(table[c][k])
  }

  /** `x` lists `y` if and only if `y` lists `x`. */
  predicate Symmetric(table: Table)
  {
    forall x, y :: x in table && y in table[x] ==> y in table && x in table[y]
  }

  /** No key lists itself. */
  predicate Irreflexive(table: Table)
  {
    forall c :: c in table ==> c !in table[c]
  }

  lemma NeighboringLettersKeys()
    ensures KeysExactly(NeighboringLetters, 'a', 'z')
  {
  }

  lemma NeighboringLettersLists()
    ensures ListsWithin(NeighboringLetters, 'a', 'z')
  {
  }

  lemma NeighboringLettersIrreflexive()
    ensures Irreflexive(NeighboringLetters)
  {
    forall c | c in NeighboringLetters
      ensures c !in NeighboringLetters[c]
    {
      assert 'a' <= c <= 'z';
    }
  }

  /** The keyboard table is not symmetric: `w` lists `d`, but `d` does not list `w`. */
  lemma NeighboringLettersNotSymmetric()
    ensures !Symmetric(NeighboringLetters)
  {
    assert 'd' in NeighboringLetters['w'] && 'w' !in NeighboringLetters['d'];
  }

  lemma NeighboringNumpadDigitsKeys()
    ensures KeysExactly(NeighboringNumpadDigits, '0', '9')
  {
  }

  lemma NeighboringNumpadDigitsLists()
    ensures ListsWithin(NeighboringNumpadDigits, '0', '9')
  {
  }

  lemma NeighboringNumpadDigitsSymmetric()
    ensures Symmetric(NeighboringNumpadDigits)
  {
    forall x, y | x in NeighboringNumpadDigits && y in NeighboringNumpadDigits[x]
      ensures y in NeighboringNumpadDigits && x in NeighboringNumpadDigits[y]
    {
      assert '0' <= x <= '9';
    }
  }

  lemma NeighboringNumpadDigitsIrreflexive()
    ensures Irreflexive(NeighboringNumpadDigits)
  {
  }

  lemma VisuallySimilarDigitsKeys()
    ensures KeysExactly(VisuallySimilarDigits, '0', '9')
  {
  }

  lemma VisuallySimilarDigitsLists()
    ensures ListsWithin(VisuallySimilarDigits, '0', '9')
  {
  }

  lemma VisuallySimilarDigitsSymmetric()
    ensures Symmetric(VisuallySimilarDigits)
  {
  }

  lemma VisuallySimilarDigitsIrreflexive()
    ensures Irreflexive(VisuallySimilarDigits)
  {
  }

  lemma VisuallySimilarLowerCharsIrreflexive()
    ensures Irreflexive(VisuallySimilarLowerChars)
  {
  }

  lemma VisuallySimilarUpperCharsIrreflexive()
    ensures Irreflexive(VisuallySimilarUpperChars)
  {
  }

  lemma VisuallySimilarCharsIrreflexive()
    ensures Irreflexive(VisuallySimilarChars)
  {
    VisuallySimilarLowerCharsIrreflexive();
    VisuallySimilarUpperCharsIrreflexive();
    forall c | c in VisuallySimilarChars
      ensures c !in VisuallySimilarChars[c]
    {
      if c in VisuallySimilarUpperChars {
        assert VisuallySimilarChars[c] == VisuallySimilarUpperChars[c];
      } else {
        assert VisuallySimilarChars[c] == VisuallySimilarLowerChars[c];
      }
    }
  }

  /** The look-alike table has as keys the digits, 14 lower-case letters and the
      upper-case letters `B` to `Z` except `H`, `J`, `K` and `R`. */
  lemma VisuallySimilarCharsKeys()
    ensures VisuallySimilarLowerChars.Keys
         == {'0', '1', '2', '3', '4', '5', '6', '7', '8', '9',
             'b', 'c', 'e', 'g', 'i', 'm', 'n', 'o', 'p', 'q', 'u', 'v', 'y', 'z'}
    ensures VisuallySimilarUpperChars.Keys
         == {'B', 'C', 'D', 'E', 'F', 'G', 'I', 'L', 'M', 'N', 'O',
             'P', 'Q', 'S', 'T', 'U', 'V', 'W', 'X', 'Y', 'Z'}
    ensures VisuallySimilarChars.Keys == VisuallySimilarLowerChars.Keys + VisuallySimilarUpperChars.Keys
  {
  }

  lemma VisuallySimilarLowerCharsLists()
    ensures ListsAlphanumeric(VisuallySimilarLowerChars)
  {
    forall c | c in VisuallySimilarLowerChars
      ensures |VisuallySimilarLowerChars[c]| > 0
      ensures forall k :: 0 <= k < |VisuallySimilarLowerChars[c]| ==>
        '0' <= VisuallySimilarLowerChars[c][k] <= '9'
        || IsLowerAscii(VisuallySimilarLowerChars[c][k]) || IsUpperAscii(VisuallySimilarLowerChars[c][k])
    {
      assert '0' <= c <= 'z';
    }
  }

  lemma VisuallySimilarUpperCharsLists()
    ensures ListsAlphanumeric(VisuallySimilarUpperChars)
  {
  }

  /** Every list of the look-alike table is non-empty and holds only letters and digits. */
  lemma VisuallySimilarCharsLists()
    ensures ListsAlphanumeric(VisuallySimilarChars)
  {
    VisuallySimilarLowerCharsLists();
    VisuallySimilarUpperCharsLists();
    forall c | c in VisuallySimilarChars
      ensures c in VisuallySimilarUpperChars ==> VisuallySimilarChars[c] == VisuallySimilarUpperChars[c]
      ensures c !in VisuallySimilarUpperChars ==> VisuallySimilarChars[c] == VisuallySimilarLowerChars[c]
    {
    }
  }

  /** The look-alike table is not symmetric: `F` lists `7`, but `7` does not list `F`. */
  lemma VisuallySimilarCharsNotSymmetric()
    ensures !Symmetric(VisuallySimilarChars)
  {
    assert '7' in VisuallySimilarChars['F'] && 'F' !in VisuallySimilarChars['7'];
  }

  /** The two halves of the visual table do not overlap: the second holds exactly
      its upper-case keys. */
  lemma VisuallySimilarCharsHalves()
    ensures forall k :: k in VisuallySimilarLowerChars ==> !IsUpperAscii(k)
    ensures forall k :: k in VisuallySimilarUpperChars ==> 'B' <= k <= 'Z'
  {
  }
}
