/** The five typo generators. Each one walks over the positions of a word and
    appends variants to a list; each is modelled by a method with that loop,
    proved equal to a declarative description of the whole list. */
module Mutations {

  import opened Wrappers
  import opened CaseMap
  import opened Seqs
  import opened Values
  import opened Const

  // ---------------------------------------------------------------------------
  // Neighbour lookup

  /** `neighbors.get(letter.lower(), letter)`: the table's list for the lower-cased
      character, or the character itself when the table has no entry for it. */
  function Neighbors(table: Table, c: char): seq<char>
  {
    if LowerChar(c) in table then table[LowerChar(c)] else [c]
  }

  /** The number of substitutes over all positions of `w`. */
  function NeighborCount(w: string, table: Table): nat
  {
    if w == [] then 0 else NeighborCount(w[..|w| - 1], table) + |Neighbors(table, w[|w| - 1])|
  }

  /** An unmapped character is its own only substitute; a mapped one uses the
      table's list, looked up without regard to case. */
  lemma NeighborsSpec(table: Table, c: char)
    ensures LowerChar(c) !in table ==> Neighbors(table, c) == [c]
    ensures LowerChar(c) in table ==> Neighbors(table, c) == table[LowerChar(c)]
    ensures Neighbors(table, c) == Neighbors(table, LowerChar(c)) || LowerChar(c) !in table
  {
  }

  /** Writing `c` between the parts of `w` around position `i` replaces `w[i]`. */
  lemma SpliceIsUpdate(w: string, i: nat, c: char)
    requires i < |w|
    ensures w[..i] + [c] + w[i + 1..] == w[i := c]
  {
  }

  // ---------------------------------------------------------------------------
  // Deleting one character

  /** Variant `i` drops the character at position `i`. */
  function Deletions(w: string): seq<string>
  {
    seq(|w|, i requires 0 <= i < |w| => w[..i] + w[i + 1..])
  }

  /** `_one_out`. */
  method OneOut(w: string) returns (variants: seq<string>)
    ensures variants == Deletions(w)
  {
    variants := [];
    for i := 0 to |w|
      invariant variants == Deletions(w)[..i]
    {
      variants := variants + [w[..i] + w[i + 1..]];
    }
  }

  /** One variant per position, each one character shorter, and putting the
      dropped character back at its position restores the word. */
  lemma DeletionsSpec(w: string, i: nat)
    requires i < |w|
    ensures |Deletions(w)| == |w|
    ensures |Deletions(w)[i]| == |w| - 1
    ensures Deletions(w)[i][..i] + [w[i]] + Deletions(w)[i][i..] == w
  {
    var v := Deletions(w)[i];
    assert v[..i] == w[..i] && v[i..] == w[i + 1..];
    assert w == w[..i] + [w[i]] + w[i + 1..];
  }

  // ---------------------------------------------------------------------------
  // Swapping two adjacent characters

  /** Variant `i` exchanges the characters at positions `i` and `i + 1`. */
  function Transpositions(w: string): seq<string>
  {
    seq(if |w| < 2 then 0 else |w| - 1, i requires 0 <= i < |w| - 1 => w[..i] + [w[i + 1]] + [w[i]] + w[i + 2..])
  }

  /** What `_swap_letters` returns: on a one-letter word it reads `word[1]` and raises. */
  function SwapOutcome(w: string): Result<seq<string>, Failure>
  {
    if |w| == 1 then Failure(IndexError) else Success(Transpositions(w))
  }

  /** `_swap_letters`: the loop runs over every index and stops after the one
      before the last. */
  method SwapLetters(w: string) returns (outcome: Result<seq<string>, Failure>)
    ensures outcome == SwapOutcome(w)
    ensures outcome.Failure? <==> |w| == 1
  {
    var variants := [];
    var i := 0;
    while i < |w|
      invariant 0 <= i <= |Transpositions(w)|
      invariant |w| >= 2 ==> i <= |w| - 2
      invariant variants == Transpositions(w)[..i]
    {
      if i + 1 >= |w| {
        return Failure(IndexError);
      }
      variants := variants + [w[..i] + [w[i + 1]] + [w[i]] + w[i + 2..]];
      if i + 2 == |w| {
        break;
      }
      i := i + 1;
    }
    assert variants == Transpositions(w);
    return Success(variants);
  }

  /** On a word of two or more characters there is one variant per adjacent pair,
      each the word with that pair exchanged, and exchanging it again restores the word. */
  lemma TranspositionsSpec(w: string, i: nat)
    requires |w| >= 2 && i < |w| - 1
    ensures |Transpositions(w)| == |w| - 1
    ensures Transpositions(w)[i] == w[i := w[i + 1]][i + 1 := w[i]]
    ensures Transpositions(Transpositions(w)[i])[i] == w
  {
    var v := Transpositions(w)[i];
    assert v == w[i := w[i + 1]][i + 1 := w[i]];
    assert Transpositions(v)[i] == v[i := v[i + 1]][i + 1 := v[i]];
  }

  /** The empty word has no variants, and only the one-letter word fails. */
  lemma SwapOutcomeSpec(w: string)
    ensures SwapOutcome(w).Failure? <==> |w| == 1
    ensures w == [] ==> SwapOutcome(w) == Success([])
    ensures SwapOutcome(w).Success? ==> |SwapOutcome(w).value| == if w == [] then 0 else |w| - 1
  {
    if w == [] {
      assert Transpositions(w) == [];
    }
  }

  // ---------------------------------------------------------------------------
  // Doubling one character

  /** Variant `i` repeats the character at position `i`. */
  function Doublings(w: string): seq<string>
  {
    seq(|w|, i requires 0 <= i < |w| => w[..i] + [w[i]] + w[i..])
  }

  /** `_double_letter`. */
  method DoubleLetter(w: string) returns (variants: seq<string>)
    ensures variants == Doublings(w)
  {
    variants := [];
    for i := 0 to |w|
      invariant variants == Doublings(w)[..i]
    {
      variants := variants + [w[..i] + [w[i]] + w[i..]];
    }
  }

  /** One variant per position, each one character longer, and deleting the added
      character again restores the word. */
  lemma DoublingsSpec(w: string, i: nat)
    requires i < |w|
    ensures |Doublings(w)| == |w|
    ensures |Doublings(w)[i]| == |w| + 1
    ensures Deletions(Doublings(w)[i])[i] == w
    ensures Doublings(w)[i][i] == Doublings(w)[i][i + 1] == w[i]
  {
    var v := Doublings(w)[i];
    assert v[..i] == w[..i] && v[i + 1..] == w[i..];
    assert w == w[..i] + w[i..];
  }

  // ---------------------------------------------------------------------------
  // Replacing one character with each of its neighbours

  /** The variants for position `i`, in the order of the neighbour list. */
  function SubstitutionRow(w: string, table: Table, i: nat): seq<string>
    requires i < |w|
  {
    var ns := Neighbors(table, w[i]);
    seq(|ns|, j requires 0 <= j < |ns| => w[..i] + [ns[j]] + w[i + 1..])
  }

  function SubstitutionRows(w: string, table: Table): seq<seq<string>>
  {
    seq(|w|, i requires 0 <= i < |w| => SubstitutionRow(w, table, i))
  }

  /** All substitution variants: position first, then table order. */
  function Substitutions(w: string, table: Table): seq<string>
  {
    Concat(SubstitutionRows(w, table))
  }

  /** Looking a character up in the visual table gives what the lower-case half alone
      gives: the upper-case keys can never match a lower-cased character. */
  lemma VisualUpperHalfUnreachable(c: char)
    ensures Neighbors(VisuallySimilarChars, c) == Neighbors(VisuallySimilarLowerChars, c)
  {
    VisuallySimilarCharsHalves();
    LowerCharSpec(c);
    assert LowerChar(c) !in VisuallySimilarUpperChars;
  }

  /** Substituting from the visual table yields what substituting from its
      lower-case half alone yields, for every word. */
  lemma SubstitutionsVisualLowerHalf(w: string)
    ensures Substitutions(w, VisuallySimilarChars) == Substitutions(w, VisuallySimilarLowerChars)
  {
    forall i | 0 <= i < |w|
      ensures SubstitutionRow(w, VisuallySimilarChars, i) == SubstitutionRow(w, VisuallySimilarLowerChars, i)
    {
      VisualUpperHalfUnreachable(w[i]);
    }
    assert SubstitutionRows(w, VisuallySimilarChars) == SubstitutionRows(w, VisuallySimilarLowerChars);
  }

  /** `_replace_with_neighbor`. */
  method ReplaceWithNeighbor(w: string, table: Table) returns (variants: seq<string>)
    ensures variants == Substitutions(w, table)
  {
    ghost var rows := SubstitutionRows(w, table);
    variants := [];
    for i := 0 to |w|
      invariant variants == Concat(rows[..i])
    {
      var ns := Neighbors(table, w[i]);
      ghost var row := SubstitutionRow(w, table, i);
      assert rows[i] == row;
      for j := 0 to |ns|
        invariant variants == Concat(rows[..i]) + row[..j]
      {
        variants := variants + [w[..i] + [ns[j]] + w[i + 1..]];
        assert row[..j + 1] == row[..j] + [row[j]];
      }
      assert row[..|ns|] == row;
      ConcatSnoc(rows, i);
    }
    assert rows[..|w|] == rows;
  }

  /** The rows before position `k` hold as many variants as the first `k` characters
      have neighbours. */
  lemma {:induction false} SubstitutionRowsPrefixLength(w: string, table: Table, k: nat)
    requires k <= |w|
    ensures |Concat(SubstitutionRows(w, table)[..k])| == NeighborCount(w[..k], table)
  {
    var rows := SubstitutionRows(w, table);
    if k > 0 {
      SubstitutionRowsPrefixLength(w, table, k - 1);
      ConcatSnoc(rows, k - 1);
      assert w[..k][..k - 1] == w[..k - 1];
    }
  }

  /** There are as many variants as neighbours over all positions. */
  lemma SubstitutionsCount(w: string, table: Table)
    ensures |Substitutions(w, table)| == NeighborCount(w, table)
  {
    SubstitutionRowsPrefixLength(w, table, |w|);
    assert SubstitutionRows(w, table)[..|w|] == SubstitutionRows(w, table);
    assert w[..|w|] == w;
  }

  /** Neighbour `j` of position `i` stands right after the variants of the earlier
      positions and the earlier neighbours, and it is the word with position `i`
      replaced by that neighbour. */
  lemma SubstitutionsAt(w: string, table: Table, i: nat, j: nat)
    requires i < |w| && j < |Neighbors(table, w[i])|
    ensures NeighborCount(w[..i], table) + j < |Substitutions(w, table)|
    ensures Substitutions(w, table)[NeighborCount(w[..i], table) + j] == w[i := Neighbors(table, w[i])[j]]
  {
    SubstitutionRowsPrefixLength(w, table, i);
    ConcatIndex(SubstitutionRows(w, table), i, j);
    var ns := Neighbors(table, w[i]);
    SpliceIsUpdate(w, i, ns[j]);
  }

  /** Every variant has the word's length and differs from it at most at one position;
      at an unmapped position that variant is the word itself. */
  lemma SubstitutionsShape(w: string, table: Table, k: nat)
    requires k < |Substitutions(w, table)|
    ensures |Substitutions(w, table)[k]| == |w|
    ensures exists i :: 0 <= i < |w| && Substitutions(w, table)[k] == w[i := Substitutions(w, table)[k][i]]
  {
    var rows := SubstitutionRows(w, table);
    ConcatMember(rows, k);
    var i, j :| 0 <= i < |rows| && 0 <= j < |rows[i]| && Concat(rows)[k] == rows[i][j];
    var n := Neighbors(table, w[i])[j];
    var v := Substitutions(w, table)[k];
    assert v == w[..i] + [n] + w[i + 1..];
    SpliceIsUpdate(w, i, n);
    assert v[i] == n;
  }

  /** A position whose character has no table entry yields the unchanged word. */
  lemma SubstitutionsUnmapped(w: string, table: Table, i: nat)
    requires i < |w| && LowerChar(w[i]) !in table
    ensures NeighborCount(w[..i], table) < |Substitutions(w, table)|
    ensures Substitutions(w, table)[NeighborCount(w[..i], table)] == w
  {
    SubstitutionsAt(w, table, i, 0);
    assert w[i := w[i]] == w;
  }

  // ---------------------------------------------------------------------------
  // Inserting each neighbour before and after a character

  /** The two variants for neighbour `n` of position `i`: inserted before the
      character, then inserted after it. */
  function InsertionPair(w: string, i: nat, n: char): seq<string>
    requires i < |w|
  {
    [w[..i] + [n] + w[i..], w[..i + 1] + [n] + w[i + 1..]]
  }

  function InsertionPairs(w: string, table: Table, i: nat): seq<seq<string>>
    requires i < |w|
  {
    var ns := Neighbors(table, w[i]);
    seq(|ns|, j requires 0 <= j < |ns| => InsertionPair(w, i, ns[j]))
  }

  /** The variants for position `i`, pair after pair in the order of the neighbour list. */
  function InsertionRow(w: string, table: Table, i: nat): seq<string>
    requires i < |w|
  {
    Concat(InsertionPairs(w, table, i))
  }

  function InsertionRows(w: string, table: Table): seq<seq<string>>
  {
    seq(|w|, i requires 0 <= i < |w| => InsertionRow(w, table, i))
  }

  /** All insertion variants: position first, then table order, before then after. */
  function Insertions(w: string, table: Table): seq<string>
  {
    Concat(InsertionRows(w, table))
  }

  /** `_b4_after_with_neighbor`. */
  method BeforeAfterWithNeighbor(w: string, table: Table) returns (variants: seq<string>)
    ensures variants == Insertions(w, table)
  {
    ghost var rows := InsertionRows(w, table);
    variants := [];
    for i := 0 to |w|
      invariant variants == Concat(rows[..i])
    {
      variants := InsertAround(w, table, i, variants);
      ConcatSnoc(rows, i);
    }
    assert rows[..|w|] == rows;
  }

  /** The inner loop of `_b4_after_with_neighbor` at position `i`: it appends the
      row of position `i` to the variants built so far. */
  method InsertAround(w: string, table: Table, i: nat, done: seq<string>) returns (variants: seq<string>)
    requires i < |w|
    ensures variants == done + InsertionRow(w, table, i)
  {
    var ns := Neighbors(table, w[i]);
    ghost var pairs := InsertionPairs(w, table, i);
    variants := done;
    for j := 0 to |ns|
      invariant variants == done + Concat(pairs[..j])
    {
      variants := variants + [w[..i] + [ns[j]] + w[i..]];
      variants := variants + [w[..i + 1] + [ns[j]] + w[i + 1..]];
      ConcatSnoc(pairs, j);
    }
    assert pairs[..|ns|] == pairs;
  }

  /** Within the row of position `i`, neighbour `j` has its "before" variant at
      `2 * j` and its "after" variant at `2 * j + 1`. */
  lemma InsertionRowAt(w: string, table: Table, i: nat, j: nat)
    requires i < |w| && j < |Neighbors(table, w[i])|
    ensures |InsertionRow(w, table, i)| == 2 * |Neighbors(table, w[i])|
    ensures InsertionRow(w, table, i)[2 * j] == InsertionPair(w, i, Neighbors(table, w[i])[j])[0]
    ensures InsertionRow(w, table, i)[2 * j + 1] == InsertionPair(w, i, Neighbors(table, w[i])[j])[1]
  {
    var pairs := InsertionPairs(w, table, i);
    ConcatUniformLength(pairs[..j], 2);
    ConcatUniformLength(pairs, 2);
    ConcatIndex(pairs, j, 0);
    ConcatIndex(pairs, j, 1);
  }

  lemma InsertionRowLength(w: string, table: Table, i: nat)
    requires i < |w|
    ensures |InsertionRow(w, table, i)| == 2 * |Neighbors(table, w[i])|
  {
    ConcatUniformLength(InsertionPairs(w, table, i), 2);
  }

  /** The rows before position `k` hold twice as many variants as the first `k`
      characters have neighbours. */
  lemma {:induction false} InsertionRowsPrefixLength(w: string, table: Table, k: nat)
    requires k <= |w|
    ensures |Concat(InsertionRows(w, table)[..k])| == 2 * NeighborCount(w[..k], table)
  {
    var rows := InsertionRows(w, table);
    if k > 0 {
      InsertionRowLength(w, table, k - 1);
      InsertionRowsPrefixLength(w, table, k - 1);
      ConcatSnoc(rows, k - 1);
      assert rows[k - 1] == InsertionRow(w, table, k - 1);
      assert |Concat(rows[..k])| == |Concat(rows[..k - 1])| + |rows[k - 1]|;
      assert w[..k][..k - 1] == w[..k - 1];
      assert w[..k][k - 1] == w[k - 1];
      assert NeighborCount(w[..k], table) == NeighborCount(w[..k - 1], table) + |Neighbors(table, w[k - 1])|;
    }
  }

  /** There are twice as many insertion variants as substitution variants. */
  lemma InsertionsCount(w: string, table: Table)
    ensures |Insertions(w, table)| == 2 * NeighborCount(w, table)
    ensures |Insertions(w, table)| == 2 * |Substitutions(w, table)|
  {
    InsertionRowsPrefixLength(w, table, |w|);
    assert InsertionRows(w, table)[..|w|] == InsertionRows(w, table);
    assert w[..|w|] == w;
    SubstitutionsCount(w, table);
  }

  /** The row of position `i` starts after twice as many variants as the
      characters before `i` have neighbours. */
  lemma InsertionsAtRow(w: string, table: Table, i: nat, m: nat)
    requires i < |w| && m < |InsertionRow(w, table, i)|
    ensures 2 * NeighborCount(w[..i], table) + m < |Insertions(w, table)|
    ensures Insertions(w, table)[2 * NeighborCount(w[..i], table) + m] == InsertionRow(w, table, i)[m]
  {
    var rows := InsertionRows(w, table);
    InsertionRowsPrefixLength(w, table, i);
    assert rows[i] == InsertionRow(w, table, i);
    ConcatIndex(rows, i, m);
  }

  /** For neighbour `j` of position `i`, the "before" variant comes immediately
      before the "after" variant, at twice the substitution offset. */
  lemma InsertionsAt(w: string, table: Table, i: nat, j: nat)
    requires i < |w| && j < |Neighbors(table, w[i])|
    ensures 2 * (NeighborCount(w[..i], table) + j) + 1 < |Insertions(w, table)|
    ensures Insertions(w, table)[2 * (NeighborCount(w[..i], table) + j)]
         == w[..i] + [Neighbors(table, w[i])[j]] + w[i..]
    ensures Insertions(w, table)[2 * (NeighborCount(w[..i], table) + j) + 1]
         == w[..i + 1] + [Neighbors(table, w[i])[j]] + w[i + 1..]
  {
    var base := 2 * NeighborCount(w[..i], table);
    InsertionRowAt(w, table, i, j);
    InsertionsAtRow(w, table, i, 2 * j);
    InsertionsAtRow(w, table, i, 2 * j + 1);
    assert 2 * (NeighborCount(w[..i], table) + j) == base + 2 * j;
  }

  lemma InsertionRowMemberLength(w: string, table: Table, i: nat, m: nat)
    requires i < |w| && m < |InsertionRow(w, table, i)|
    ensures |InsertionRow(w, table, i)[m]| == |w| + 1
  {
    var pairs := InsertionPairs(w, table, i);
    ConcatMember(pairs, m);
    var p, q :| 0 <= p < |pairs| && 0 <= q < |pairs[p]| && Concat(pairs)[m] == pairs[p][q];
    assert |pairs[p][q]| == |w| + 1;
  }

  /** Every insertion variant is one character longer than the word. */
  lemma InsertionsLength(w: string, table: Table, k: nat)
    requires k < |Insertions(w, table)|
    ensures |Insertions(w, table)[k]| == |w| + 1
  {
    var rows := InsertionRows(w, table);
    ConcatMember(rows, k);
    var i, m :| 0 <= i < |rows| && 0 <= m < |rows[i]| && Concat(rows)[k] == rows[i][m];
    InsertionRowMemberLength(w, table, i, m);
  }

  /** Writing `w[i]` again before or after position `i` gives the same string. */
  lemma DoublingBothWays(w: string, i: nat)
    requires i < |w|
    ensures w[..i + 1] + [w[i]] + w[i + 1..] == w[..i] + [w[i]] + w[i..] == Doublings(w)[i]
  {
    assert w[..i + 1] == w[..i] + [w[i]];
    assert w[i..] == [w[i]] + w[i + 1..];
  }

  /** At a position whose character has no table entry the "before" and "after"
      variants are the same string: the word with that character doubled. */
  lemma InsertionsUnmapped(w: string, table: Table, i: nat)
    requires i < |w| && LowerChar(w[i]) !in table
    ensures 2 * NeighborCount(w[..i], table) + 1 < |Insertions(w, table)|
    ensures Insertions(w, table)[2 * NeighborCount(w[..i], table)]
         == Insertions(w, table)[2 * NeighborCount(w[..i], table) + 1]
         == Doublings(w)[i]
  {
    InsertionsAt(w, table, i, 0);
    NeighborsSpec(table, w[i]);
    DoublingBothWays(w, i);
  }
}
