/** `generate_typos`: lower-case the label, run every mutation whose rarity code
    the filter selects, in the order of the code table, look each typo up in the
    availability cache of `src/typo.py`, tag the result with its code and yield it. */
module Typo {

  import opened Wrappers
  import opened CaseMap
  import opened Values
  import opened Const
  import opened Availability
  import M = Mutations

  // ---------------------------------------------------------------------------
  // Rarity codes and the mutation bound to each

  datatype Code = A1 | A2 | B1 | B2 | B3 | C1 | C2 | D1 | D2

  /** The code as the source writes it. */
  function Key(code: Code): string
  {
    match code
    case A1 => "A1" case A2 => "A2"
    case B1 => "B1" case B2 => "B2" case B3 => "B3"
    case C1 => "C1" case C2 => "C2"
    case D1 => "D1" case D2 => "D2"
  }

  /** `key[0]`: the group letter. */
  function Group(code: Code): char
  {
    Key(code)[0]
  }

  /** The keys of `typo_groups`, in insertion order. */
  const TypoGroups: seq<Code> := [A1, A2, B1, B2, B3, C1, C2, D1, D2]

  /** The mutation function of a code and the neighbour table it is called with. */
  datatype Mutation =
    | Substitute(table: Table)    // `_replace_with_neighbor`
    | Delete                      // `_one_out`
    | Transpose                   // `_swap_letters`
    | Duplicate                   // `_double_letter`
    | Insert(table: Table)        // `_b4_after_with_neighbor`

  function Binding(code: Code): Mutation
  {
    match code
    case A1 => Substitute(NeighboringLetters)
    case A2 => Substitute(NeighboringNumpadDigits)
    case B1 => Delete
    case B2 => Transpose
    case B3 => Duplicate
    case C1 => Substitute(VisuallySimilarChars)
    case C2 => Substitute(VisuallySimilarDigits)
    case D1 => Insert(NeighboringLetters)
    case D2 => Insert(NeighboringNumpadDigits)
  }

  /** `func(domain, **kwargs)` for the code. */
  function Mutate(word: string, code: Code): Result<seq<string>, Failure>
  {
    match Binding(code)
    case Substitute(table) => Success(M.Substitutions(word, table))
    case Delete => Success(M.Deletions(word))
    case Transpose => M.SwapOutcome(word)
    case Duplicate => Success(M.Doublings(word))
    case Insert(table) => Success(M.Insertions(word, table))
  }

  /** How many typos the code's mutation yields. */
  function MutationCount(word: string, code: Code): nat
  {
    match Binding(code)
    case Substitute(table) => M.NeighborCount(word, table)
    case Delete => |word|
    case Transpose => if |word| < 2 then 0 else |word| - 1
    case Duplicate => |word|
    case Insert(table) => 2 * M.NeighborCount(word, table)
  }

  /** Only the swap of a one-letter word fails, and every mutation yields as many
      typos as `MutationCount` says. */
  lemma MutateSpec(word: string, code: Code)
    ensures Mutate(word, code).Failure? <==> code == B2 && |word| == 1
    ensures Mutate(word, code).Failure? ==> Mutate(word, code).error == IndexError
    ensures Mutate(word, code).Success? ==> |Mutate(word, code).value| == MutationCount(word, code)
  {
    match Binding(code)
    case Substitute(table) => M.SubstitutionsCount(word, table);
    case Insert(table) => M.InsertionsCount(word, table);
    case Delete =>
    case Duplicate =>
    case Transpose => M.SwapOutcomeSpec(word);
  }

  /** The mutation methods, dispatched on the code. */
  method Typos(word: string, code: Code) returns (outcome: Result<seq<string>, Failure>)
    ensures outcome == Mutate(word, code)
  {
    match Binding(code)
    case Substitute(table) =>
      var variants := M.ReplaceWithNeighbor(word, table);
      outcome := Success(variants);
    case Delete =>
      var variants := M.OneOut(word);
      outcome := Success(variants);
    case Transpose =>
      outcome := M.SwapLetters(word);
    case Duplicate =>
      var variants := M.DoubleLetter(word);
      outcome := Success(variants);
    case Insert(table) =>
      var variants := M.BeforeAfterWithNeighbor(word, table);
      outcome := Success(variants);
  }

  // ---------------------------------------------------------------------------
  // Selection by filter

  /** `filter.upper() if filter else None`: no filter and the empty filter both
      select everything. */
  function Normalize(filter: Option<string>): Option<string>
  {
    if filter.None? || filter.value == "" then None else Some(Upper(filter.value))
  }

  /** `filter is None or filter == group or filter == key`. */
  predicate Selects(filter: Option<string>, code: Code)
  {
    var f := Normalize(filter);
    f.None? || f.value == [Group(code)] || f.value == Key(code)
  }

  /** The selected codes among `codes`, in their order. */
  function SelectFrom(filter: Option<string>, codes: seq<Code>): seq<Code>
  {
    if codes == [] then []
    else
      SelectFrom(filter, codes[..|codes| - 1])
      + (if Selects(filter, codes[|codes| - 1]) then [codes[|codes| - 1]] else [])
  }

  function Selected(filter: Option<string>): seq<Code>
  {
    SelectFrom(filter, TypoGroups)
  }

  /** Position of a code in the table. */
  function Rank(code: Code): nat
  {
    match code
    case A1 => 0 case A2 => 1
    case B1 => 2 case B2 => 3 case B3 => 4
    case C1 => 5 case C2 => 6
    case D1 => 7 case D2 => 8
  }

  /** The selection from a prefix of the table holds exactly the selected codes of
      that prefix... */
  lemma {:induction false} SelectFromMembers(filter: Option<string>, k: nat)
    requires k <= |TypoGroups|
    ensures forall code :: code in SelectFrom(filter, TypoGroups[..k]) <==> Rank(code) < k && Selects(filter, code)
  {
    if k > 0 {
      var code := TypoGroups[k - 1];
      SelectFromMembers(filter, k - 1);
      SelectFromStep(filter, k);
      assert Rank(code) == k - 1 by { RankIndex(); }
      forall c
        ensures c in SelectFrom(filter, TypoGroups[..k]) <==> Rank(c) < k && Selects(filter, c)
      {
        assert Rank(c) == k - 1 ==> c == code by {
          assert TypoGroups[Rank(c)] == c;
        }
      }
    }
  }

  /** ... and in table order. */
  lemma {:induction false} SelectFromOrdered(filter: Option<string>, k: nat)
    requires k <= |TypoGroups|
    ensures forall i, j :: 0 <= i < j < |SelectFrom(filter, TypoGroups[..k])| ==>
      Rank(SelectFrom(filter, TypoGroups[..k])[i]) < Rank(SelectFrom(filter, TypoGroups[..k])[j])
  {
    if k > 0 {
      SelectFromOrdered(filter, k - 1);
      SelectFromMembers(filter, k - 1);
      SelectFromStep(filter, k);
      RankIndex();
      var prev := SelectFrom(filter, TypoGroups[..k - 1]);
      assert forall i :: 0 <= i < |prev| ==> prev[i] in prev;
    }
  }

  /** `Rank` is the position in the table. */
  lemma RankIndex()
    ensures forall i :: 0 <= i < |TypoGroups| ==> Rank(TypoGroups[i]) == i
  {
  }

  /** A code is selected exactly when the filter picks it, and the selection keeps
      table order. */
  lemma SelectedSpec(filter: Option<string>)
    ensures forall code :: code in Selected(filter) <==> Selects(filter, code)
    ensures forall i, j :: 0 <= i < j < |Selected(filter)| ==> Rank(Selected(filter)[i]) < Rank(Selected(filter)[j])
  {
    SelectFromMembers(filter, |TypoGroups|);
    SelectFromOrdered(filter, |TypoGroups|);
    assert TypoGroups[..|TypoGroups|] == TypoGroups;
  }

  function Pick(filter: Option<string>, code: Code): seq<Code>
  {
    if Selects(filter, code) then [code] else []
  }

  lemma SelectFromStep(filter: Option<string>, k: nat)
    requires 0 < k <= |TypoGroups|
    ensures SelectFrom(filter, TypoGroups[..k]) == SelectFrom(filter, TypoGroups[..k - 1]) + Pick(filter, TypoGroups[k - 1])
  {
    assert TypoGroups[..k][..k - 1] == TypoGroups[..k - 1];
  }

  /** Strictly increasing in table position. */
  predicate Ranked(s: seq<Code>)
  {
    forall i, j :: 0 <= i < j < |s| ==> Rank(s[i]) < Rank(s[j])
  }

  /** Two lists of codes in table order with the same members are the same list. */
  lemma {:induction false} RankedUnique(s: seq<Code>, t: seq<Code>)
    requires Ranked(s) && Ranked(t)
    requires forall c :: c in s <==> c in t
    ensures s == t
    decreases |s|
  {
    assert s == [] <==> t == [] by {
      if s != [] {
        assert s[0] in t;
      }
      if t != [] {
        assert t[0] in s;
      }
    }
    if s != [] {
      assert s[0] in t && t[0] in s;
      assert s[0] == t[0] by {
        var i :| 0 <= i < |t| && t[i] == s[0];
        var j :| 0 <= j < |s| && s[j] == t[0];
        assert Rank(s[0]) <= Rank(s[j]) && Rank(t[0]) <= Rank(t[i]);
      }
      forall c ensures c in s[1..] <==> c in t[1..] {
        if c in s[1..] {
          var i :| 1 <= i < |s| && s[i] == c;
          assert c in s && c != s[0];
        }
        if c in t[1..] {
          var i :| 1 <= i < |t| && t[i] == c;
          assert c in t && c != t[0];
        }
        assert c in s <==> c == s[0] || c in s[1..];
        assert c in t <==> c == t[0] || c in t[1..];
      }
      RankedUnique(s[1..], t[1..]);
      assert s == [s[0]] + s[1..] && t == [t[0]] + t[1..];
    }
  }

  /** The selection is the list, in table order, of exactly the codes `picked`. */
  lemma SelectedIs(filter: Option<string>, picked: seq<Code>)
    requires Ranked(picked)
    requires forall c :: Selects(filter, c) <==> c in picked
    ensures Selected(filter) == picked
  {
    SelectedSpec(filter);
    RankedUnique(Selected(filter), picked);
  }

  /** No filter, or the empty one, selects all nine codes. */
  lemma SelectedAll(filter: Option<string>)
    requires filter.None? || filter.value == ""
    ensures Selected(filter) == TypoGroups
  {
    forall c ensures c in TypoGroups {
      assert TypoGroups[Rank(c)] == c;
    }
    SelectedIs(filter, TypoGroups);
  }

  /** A group letter, in either case, selects the whole group in table order. */
  lemma SelectedGroups()
    ensures Selected(Some("b")) == [B1, B2, B3] && Selected(Some("B")) == [B1, B2, B3]
  {
    assert Upper("b") == "B" && Upper("B") == "B";
    SelectedIs(Some("b"), [B1, B2, B3]);
    SelectedIs(Some("B"), [B1, B2, B3]);
  }

  /** ... and likewise for the groups of two. */
  lemma SelectedPairs()
    ensures Selected(Some("a")) == [A1, A2] && Selected(Some("c")) == [C1, C2] && Selected(Some("D")) == [D1, D2]
  {
    assert Upper("a") == "A" && Upper("c") == "C" && Upper("D") == "D";
    SelectedIs(Some("a"), [A1, A2]);
    SelectedIs(Some("c"), [C1, C2]);
    SelectedIs(Some("D"), [D1, D2]);
  }

  /** A full code, in either case, selects that code alone. */
  lemma SelectedCodes()
    ensures Selected(Some("C2")) == [C2] && Selected(Some("b3")) == [B3] && Selected(Some("B1")) == [B1]
  {
    assert Upper("C2") == "C2" && Upper("b3") == "B3" && Upper("B1") == "B1";
    SelectedIs(Some("C2"), [C2]);
    SelectedIs(Some("b3"), [B3]);
    SelectedIs(Some("B1"), [B1]);
  }

  /** Every code, written in either case, selects that code alone. */
  lemma SelectedKey(code: Code)
    ensures Selected(Some(Key(code))) == [code]
    ensures Selected(Some(Lower(Key(code)))) == [code]
  {
    assert Upper(Key(code)) == Key(code);
    UpperOfLower(Key(code));
    SelectedIs(Some(Key(code)), [code]);
    SelectedIs(Some(Lower(Key(code))), [code]);
  }

  /** A group letter, in either case, selects exactly the codes of that group, in
      table order. */
  lemma SelectedGroup(code: Code)
    ensures Selected(Some([Group(code)])) == Selected(Some([LowerChar(Group(code))]))
    ensures forall c :: c in Selected(Some([Group(code)])) <==> Group(c) == Group(code)
    ensures Ranked(Selected(Some([Group(code)])))
  {
    var g := [Group(code)];
    assert Upper(g) == g;
    assert Upper([LowerChar(Group(code))]) == g;
    SelectedSpec(Some(g));
    SelectedSpec(Some([LowerChar(Group(code))]));
    RankedUnique(Selected(Some(g)), Selected(Some([LowerChar(Group(code))])));
  }

  /** A filter that is neither a group letter nor a code selects nothing. */
  lemma SelectedNothing(filter: Option<string>)
    requires Normalize(filter).Some?
    requires forall code :: Normalize(filter).value != Key(code) && Normalize(filter).value != [Group(code)]
    ensures Selected(filter) == []
  {
    SelectedIs(filter, []);
  }

  /** `Z`, `A3` and `B12` select nothing. */
  lemma SelectedOthers()
    ensures Selected(Some("Z")) == [] && Selected(Some("A3")) == [] && Selected(Some("B12")) == []
  {
    assert Upper("Z") == "Z";
    SelectedNothing(Some("Z"));
    assert Upper("A3") == "A3";
    SelectedNothing(Some("A3"));
    assert Upper("B12") == "B12";
    SelectedNothing(Some("B12"));
  }

  // ---------------------------------------------------------------------------
  // The typos to look up

  datatype Task = Task(code: Code, typo: string)

  /** The typos to look up, in order, and whether a mutation raised before the end. */
  datatype Plan = Plan(tasks: seq<Task>, crashed: bool)

  function TasksOf(code: Code, typos: seq<string>): seq<Task>
  {
    seq(|typos|, i requires 0 <= i < |typos| => Task(code, typos[i]))
  }

  /** The typos of `codes`, in order; the first mutation that raises ends the list. */
  function PlanFor(word: string, codes: seq<Code>): Plan
  {
    if codes == [] then Plan([], false)
    else
      var prev := PlanFor(word, codes[..|codes| - 1]);
      var code := codes[|codes| - 1];
      if prev.crashed then prev
      else
        match Mutate(word, code)
        case Failure(_) => Plan(prev.tasks, true)
        case Success(typos) => Plan(prev.tasks + TasksOf(code, typos), false)
  }

  /** The plan for a longer list of codes extends the plan for a prefix, and once a
      mutation has raised nothing is added. */
  lemma {:induction false} PlanExtends(word: string, xs: seq<Code>, ys: seq<Code>)
    requires xs <= ys
    ensures PlanFor(word, xs).tasks <= PlanFor(word, ys).tasks
    ensures PlanFor(word, xs).crashed ==> PlanFor(word, ys) == PlanFor(word, xs)
    ensures PlanFor(word, ys).crashed ==> PlanFor(word, xs).crashed || |xs| < |ys|
  {
    if |xs| < |ys| {
      var init := ys[..|ys| - 1];
      assert xs <= init;
      PlanExtends(word, xs, init);
    } else {
      assert xs == ys;
    }
  }

  /** Total number of typos of `codes`. */
  function TotalCount(word: string, codes: seq<Code>): nat
  {
    if codes == [] then 0 else TotalCount(word, codes[..|codes| - 1]) + MutationCount(word, codes[|codes| - 1])
  }

  /** The plan raises exactly when the swap is selected on a one-letter label, and
      otherwise holds every mutation's typos, code by code. */
  lemma {:induction false} PlanForSpec(word: string, codes: seq<Code>)
    ensures PlanFor(word, codes).crashed <==> B2 in codes && |word| == 1
    ensures !PlanFor(word, codes).crashed ==> |PlanFor(word, codes).tasks| == TotalCount(word, codes)
    ensures forall k :: 0 <= k < |PlanFor(word, codes).tasks| ==> PlanFor(word, codes).tasks[k].code in codes
  {
    if codes != [] {
      var init := codes[..|codes| - 1];
      var code := codes[|codes| - 1];
      PlanForSpec(word, init);
      MutateSpec(word, code);
      assert codes == init + [code];
      assert B2 in codes <==> B2 in init || code == B2;
    }
  }

  // ---------------------------------------------------------------------------
  // Running the lookups

  /** What the generator has produced so far: the yielded dictionaries, the
      exception that ended it, if any, and the cache. */
  datatype Run = Run(yielded: seq<Record>, failure: Option<Failure>, store: Store)

  /** `f"[{key}]"`. */
  function FreqTag(code: Code): Json
  {
    JStr("[" + Key(code) + "]")
  }

  /** The dictionary carries the `freq` tag of `code`. */
  predicate Tagged(record: Record, code: Code)
  {
    "freq" in record && record["freq"] == FreqTag(code)
  }

  /** `result.update({"freq": ...})`. */
  function Tag(record: Record, code: Code): Record
  {
    record["freq" := FreqTag(code)]
  }

  /** One iteration of the inner loop: look the typo up, tag the result (which, when
      the result is the cache's own entry, tags the entry too) and yield it. */
  function Advance(run: Run, cfg: Config, tld: string, service: string -> Record, task: Task): Run
  {
    if run.failure.Some? then run
    else
      var domain := FullDomain(task.typo, tld);
      var step := LookupStep(run.store, cfg, domain, map[], service);
      match step.outcome
      case Rejected(response) => Run(run.yielded, Some(ApiRequestError(response)), step.store)
      case Unchecked(record) => Run(run.yielded + [Tag(record, task.code)], None, step.store)
      case Hit(record) =>
        Run(run.yielded + [Tag(record, task.code)], None,
            step.store.(entries := step.store.entries[domain := Tag(record, task.code)]))
      case Fetched(record) =>
        Run(run.yielded + [Tag(record, task.code)], None,
            step.store.(entries := step.store.entries[domain := Tag(record, task.code)]))
  }

  function RunTasks(run: Run, cfg: Config, tld: string, service: string -> Record, tasks: seq<Task>): Run
  {
    if tasks == [] then run
    else Advance(RunTasks(run, cfg, tld, service, tasks[..|tasks| - 1]), cfg, tld, service, tasks[|tasks| - 1])
  }

  /** Everything `generate_typos` yields when drained, and how it ends. */
  function GenerateSpec(st: Store, cfg: Config, domain: string, tld: string, filter: Option<string>,
                        service: string -> Record): Run
  {
    Drain(st, cfg, tld, service, PlanFor(Lower(domain), Selected(filter)))
  }

  /** Looking up a plan's typos from a fresh run; a plan whose mutation raised ends
      with `IndexError` unless a lookup raised first. */
  function Drain(st: Store, cfg: Config, tld: string, service: string -> Record, plan: Plan): Run
  {
    var run := RunTasks(Run([], None, st), cfg, tld, service, plan.tasks);
    if plan.crashed && run.failure.None? then run.(failure := Some(IndexError)) else run
  }

  /** A drained plan yields one dictionary per typo unless something raised, and it
      raises `IndexError` exactly when the plan crashed and no lookup raised first. */
  lemma DrainCount(st: Store, cfg: Config, tld: string, service: string -> Record, plan: Plan)
    ensures var r := Drain(st, cfg, tld, service, plan);
      && |r.yielded| <= |plan.tasks|
      && (r.failure.None? ==> !plan.crashed && |r.yielded| == |plan.tasks|)
      && (plan.crashed ==> r.failure.Some?)
      && (r.failure == Some(IndexError) ==> plan.crashed)
  {
    RunTasksCount(Run([], None, st), cfg, tld, service, plan.tasks);
  }

  /** Every dictionary a drained plan yields carries the tag of its typo's code. */
  lemma DrainTags(st: Store, cfg: Config, tld: string, service: string -> Record, plan: Plan)
    ensures TaggedAs(Drain(st, cfg, tld, service, plan).yielded, plan.tasks)
  {
    RunTasksTags(st, cfg, tld, service, plan.tasks);
  }

  lemma {:induction false} RunTasksFailed(run: Run, cfg: Config, tld: string, service: string -> Record, tasks: seq<Task>)
    requires run.failure.Some?
    ensures RunTasks(run, cfg, tld, service, tasks) == run
  {
    if tasks != [] {
      RunTasksFailed(run, cfg, tld, service, tasks[..|tasks| - 1]);
    }
  }

  /** Running two lists of tasks one after the other is running their concatenation. */
  lemma {:induction false} RunTasksAppend(run: Run, cfg: Config, tld: string, service: string -> Record,
                                          xs: seq<Task>, ys: seq<Task>)
    ensures RunTasks(run, cfg, tld, service, xs + ys) == RunTasks(RunTasks(run, cfg, tld, service, xs), cfg, tld, service, ys)
  {
    if ys == [] {
      assert xs + ys == xs;
    } else {
      assert (xs + ys)[..|xs + ys| - 1] == xs + ys[..|ys| - 1];
      RunTasksAppend(run, cfg, tld, service, xs, ys[..|ys| - 1]);
    }
  }

  /** Once a run has raised, running the rest of a longer list changes nothing. */
  lemma RunTasksPrefixFailed(run: Run, cfg: Config, tld: string, service: string -> Record, xs: seq<Task>, ys: seq<Task>)
    requires xs <= ys
    requires RunTasks(run, cfg, tld, service, xs).failure.Some?
    ensures RunTasks(run, cfg, tld, service, ys) == RunTasks(run, cfg, tld, service, xs)
  {
    assert ys == xs + ys[|xs|..];
    RunTasksAppend(run, cfg, tld, service, xs, ys[|xs|..]);
    RunTasksFailed(RunTasks(run, cfg, tld, service, xs), cfg, tld, service, ys[|xs|..]);
  }

  /** One lookup either raises `APIRequestError` and yields nothing, or yields
      exactly one more dictionary, tagged with the typo's code. */
  lemma AdvanceYields(run: Run, cfg: Config, tld: string, service: string -> Record, task: Task)
    requires run.failure.None?
    ensures var r := Advance(run, cfg, tld, service, task);
      && (r.failure.Some? ==> r.failure.value.ApiRequestError? && r.yielded == run.yielded)
      && (r.failure.None? ==>
            && |r.yielded| == |run.yielded| + 1
            && r.yielded[..|run.yielded|] == run.yielded
            && Tagged(r.yielded[|run.yielded|], task.code))
  {
  }

  /** The dictionary a lookup yields is the lookup's answer with the `freq` tag
      written over it. When that answer is the cache's own entry (a hit or a
      fetch), the entry is tagged too, so the cache holds exactly what was
      yielded. */
  lemma AdvanceAnswer(run: Run, cfg: Config, tld: string, service: string -> Record, task: Task)
    requires run.failure.None?
    ensures var r := Advance(run, cfg, tld, service, task);
      var domain := FullDomain(task.typo, tld);
      var step := LookupStep(run.store, cfg, domain, map[], service);
      && (r.failure.None? ==>
            && |r.yielded| == |run.yielded| + 1
            && r.yielded[|run.yielded|] == Tag(step.outcome.record, task.code))
      && (step.outcome.Aliased() ==>
            && |r.yielded| == |run.yielded| + 1
            && domain in r.store.entries && r.store.entries[domain] == r.yielded[|run.yielded|])
  {
  }

  /** The stream yields one dictionary per typo and stops early only when the
      registrar raised. */
  lemma {:induction false} RunTasksCount(run: Run, cfg: Config, tld: string, service: string -> Record, tasks: seq<Task>)
    requires run.failure.None?
    ensures var r := RunTasks(run, cfg, tld, service, tasks);
      && |r.yielded| <= |run.yielded| + |tasks|
      && (r.failure.None? ==> |r.yielded| == |run.yielded| + |tasks|)
      && (r.failure.Some? ==> r.failure.value.ApiRequestError?)
  {
    if tasks != [] {
      var init := tasks[..|tasks| - 1];
      RunTasksCount(run, cfg, tld, service, init);
      var mid := RunTasks(run, cfg, tld, service, init);
      if mid.failure.None? {
        AdvanceYields(mid, cfg, tld, service, tasks[|tasks| - 1]);
      }
    }
  }

  /** The `k`-th yielded dictionary carries the tag of the `k`-th task's code. */
  predicate TaggedAs(yielded: seq<Record>, tasks: seq<Task>)
  {
    && |yielded| <= |tasks|
    && forall k :: 0 <= k < |yielded| ==> Tagged(yielded[k], tasks[k].code)
  }

  /** Adding nothing, or one dictionary tagged for the next task once every earlier
      task has its dictionary, keeps the yields tagged. */
  lemma TaggedAsStep(before: seq<Record>, after: seq<Record>, tasks: seq<Task>)
    requires tasks != [] && TaggedAs(before, tasks[..|tasks| - 1])
    requires after == before || (
      && |before| == |tasks| - 1
      && |after| == |before| + 1
      && after[..|before|] == before
      && Tagged(after[|before|], tasks[|tasks| - 1].code))
    ensures TaggedAs(after, tasks)
  {
    forall k | 0 <= k < |after|
      ensures Tagged(after[k], tasks[k].code)
    {
      if k < |before| {
        assert after[k] == before[k];
        assert tasks[k] == tasks[..|tasks| - 1][k];
      }
    }
  }

  /** Drawing from a fresh run, the dictionary yielded for a typo carries the tag
      of that typo's code. */
  lemma {:induction false} RunTasksTags(st: Store, cfg: Config, tld: string, service: string -> Record, tasks: seq<Task>)
    ensures TaggedAs(RunTasks(Run([], None, st), cfg, tld, service, tasks).yielded, tasks)
  {
    if tasks != [] {
      var run := Run([], None, st);
      var init := tasks[..|tasks| - 1];
      RunTasksTags(st, cfg, tld, service, init);
      var mid := RunTasks(run, cfg, tld, service, init);
      if mid.failure.None? {
        RunTasksCount(run, cfg, tld, service, init);
        AdvanceYields(mid, cfg, tld, service, tasks[|tasks| - 1]);
      }
      TaggedAsStep(mid.yielded, RunTasks(run, cfg, tld, service, tasks).yielded, tasks);
    }
  }

  /** Bookkeeping over a whole run: entries are never removed, every pause follows a
      request, saves match pauses when caching is on, at most one request raised,
      and with checking off there are no requests at all. */
  lemma {:induction false} RunTasksAccounted(run: Run, cfg: Config, tld: string, service: string -> Record, tasks: seq<Task>)
    requires run.failure.None?
    ensures var r := RunTasks(run, cfg, tld, service, tasks);
      Accounted(cfg, run.store, r.store, r.failure.Some?)
  {
    if tasks == [] {
      AccountedRefl(cfg, run.store);
    } else {
      var init := tasks[..|tasks| - 1];
      var task := tasks[|tasks| - 1];
      RunTasksAccounted(run, cfg, tld, service, init);
      var prev := RunTasks(run, cfg, tld, service, init);
      if prev.failure.None? {
        var domain := FullDomain(task.typo, tld);
        LookupAccounted(prev.store, cfg, domain, map[], service);
        var step := LookupStep(prev.store, cfg, domain, map[], service);
        var r := Advance(prev, cfg, tld, service, task);
        assert Accounted(cfg, prev.store, r.store, r.failure.Some?);
        AccountedTrans(cfg, run.store, prev.store, r.store, r.failure.Some?);
      }
    }
  }

  /** With checking on, a lookup that does not raise leaves its domain in the
      cache, next to every domain that was there before. */
  lemma AdvanceFills(run: Run, cfg: Config, tld: string, service: string -> Record, task: Task)
    requires run.failure.None? && cfg.checkAvailability
    ensures var r := Advance(run, cfg, tld, service, task);
      r.failure.None? ==> run.store.entries.Keys + {FullDomain(task.typo, tld)} <= r.store.entries.Keys
  {
    LookupAccounted(run.store, cfg, FullDomain(task.typo, tld), map[], service);
  }

  /** Every typo's domain is among `keys`. */
  predicate DomainsCached(keys: set<string>, tld: string, tasks: seq<Task>)
  {
    forall t :: t in tasks ==> FullDomain(t.typo, tld) in keys
  }

  lemma DomainsCachedStep(before: set<string>, after: set<string>, tld: string, tasks: seq<Task>)
    requires tasks != [] && DomainsCached(before, tld, tasks[..|tasks| - 1])
    requires before + {FullDomain(tasks[|tasks| - 1].typo, tld)} <= after
    ensures DomainsCached(after, tld, tasks)
  {
    forall t | t in tasks
      ensures FullDomain(t.typo, tld) in after
    {
      assert tasks == tasks[..|tasks| - 1] + [tasks[|tasks| - 1]];
    }
  }

  /** With checking on, a run that did not raise leaves every looked-up domain in the cache. */
  lemma {:induction false} RunTasksFills(run: Run, cfg: Config, tld: string, service: string -> Record, tasks: seq<Task>)
    requires run.failure.None? && cfg.checkAvailability
    ensures var r := RunTasks(run, cfg, tld, service, tasks);
      r.failure.None? ==> DomainsCached(r.store.entries.Keys, tld, tasks)
  {
    if tasks != [] {
      var init := tasks[..|tasks| - 1];
      var task := tasks[|tasks| - 1];
      RunTasksFills(run, cfg, tld, service, init);
      var prev := RunTasks(run, cfg, tld, service, init);
      if prev.failure.None? {
        var r := Advance(prev, cfg, tld, service, task);
        AdvanceFills(prev, cfg, tld, service, task);
        if r.failure.None? {
          DomainsCachedStep(prev.store.entries.Keys, r.store.entries.Keys, tld, tasks);
        }
      }
    }
  }

  /** With caching on, a run over typos that are all cached already asks the
      registrar nothing, saves nothing, pauses never and does not raise. */
  lemma {:induction false} RunTasksWarm(run: Run, cfg: Config, tld: string, service: string -> Record, tasks: seq<Task>)
    requires run.failure.None? && cfg.cached
    requires forall t :: t in tasks ==> FullDomain(t.typo, tld) in run.store.entries
    ensures var r := RunTasks(run, cfg, tld, service, tasks);
      && r.failure.None?
      && r.store.calls == run.store.calls && r.store.sleeps == run.store.sleeps
      && r.store.saves == run.store.saves && r.store.saved == run.store.saved
      && r.store.entries.Keys == run.store.entries.Keys
  {
    if tasks != [] {
      var init := tasks[..|tasks| - 1];
      var task := tasks[|tasks| - 1];
      assert tasks == init + [task];
      RunTasksWarm(run, cfg, tld, service, init);
      var prev := RunTasks(run, cfg, tld, service, init);
      assert FullDomain(task.typo, tld) in prev.store.entries;
    }
  }

  /** With caching and checking both off, every typo yields a dictionary holding
      only its `freq` tag and the cache is left alone. */
  lemma {:induction false} RunTasksOffline(run: Run, cfg: Config, tld: string, service: string -> Record, tasks: seq<Task>)
    requires run.failure.None? && !cfg.cached && !cfg.checkAvailability
    ensures RunTasks(run, cfg, tld, service, tasks)
         == run.(yielded := run.yielded + seq(|tasks|, k requires 0 <= k < |tasks| => map["freq" := FreqTag(tasks[k].code)]))
  {
    if tasks != [] {
      var init := tasks[..|tasks| - 1];
      RunTasksOffline(run, cfg, tld, service, init);
    }
  }

  /** A drained run ends with `IndexError` exactly when the swap is selected for a
      one-letter label and the registrar did not raise first. */
  lemma GenerateIndexError(st: Store, cfg: Config, domain: string, tld: string, filter: Option<string>,
                           service: string -> Record)
    ensures var r := GenerateSpec(st, cfg, domain, tld, filter, service);
      && (r.failure == Some(IndexError) ==> B2 in Selected(filter) && |domain| == 1)
      && (B2 in Selected(filter) && |domain| == 1 ==> r.failure.Some?)
  {
    var word := Lower(domain);
    PlanForSpec(word, Selected(filter));
    DrainCount(st, cfg, tld, service, PlanFor(word, Selected(filter)));
  }

  /** Unless the run raised, it yields one dictionary per planned typo; every
      yielded dictionary carries the `freq` tag of the code that produced its typo,
      and that code is one the filter selected. */
  lemma GenerateYields(st: Store, cfg: Config, domain: string, tld: string, filter: Option<string>,
                       service: string -> Record)
    ensures var r := GenerateSpec(st, cfg, domain, tld, filter, service);
      var plan := PlanFor(Lower(domain), Selected(filter));
      && (r.failure.None? ==> |r.yielded| == TotalCount(Lower(domain), Selected(filter)))
      && |r.yielded| <= |plan.tasks|
      && forall k :: 0 <= k < |r.yielded| ==>
           plan.tasks[k].code in Selected(filter) && Tagged(r.yielded[k], plan.tasks[k].code)
  {
    var word := Lower(domain);
    PlanForSpec(word, Selected(filter));
    DrainCount(st, cfg, tld, service, PlanFor(word, Selected(filter)));
    DrainTags(st, cfg, tld, service, PlanFor(word, Selected(filter)));
  }

  /** Bookkeeping over a drained run: entries only accumulate, every pause follows a
      request, a save accompanies every pause when caching is on, only a registrar
      error leaves a request without a pause, and with checking off there are no
      requests at all. */
  lemma GenerateAccounted(st: Store, cfg: Config, domain: string, tld: string, filter: Option<string>,
                          service: string -> Record)
    ensures var r := GenerateSpec(st, cfg, domain, tld, filter, service);
      Accounted(cfg, st, r.store, r.failure.Some? && r.failure.value.ApiRequestError?)
  {
    var plan := PlanFor(Lower(domain), Selected(filter));
    RunTasksAccounted(Run([], None, st), cfg, tld, service, plan.tasks);
    RunTasksCount(Run([], None, st), cfg, tld, service, plan.tasks);
  }

  /** With caching and checking on, running the same generation again after one that
      finished asks the registrar nothing, pauses never, saves nothing, does not
      raise and yields as many dictionaries, whatever the registrar would now say. */
  lemma GenerateTwice(st: Store, cfg: Config, domain: string, tld: string, filter: Option<string>,
                      service: string -> Record, service': string -> Record)
    requires cfg.cached && cfg.checkAvailability
    requires GenerateSpec(st, cfg, domain, tld, filter, service).failure.None?
    ensures var r1 := GenerateSpec(st, cfg, domain, tld, filter, service);
      var r2 := GenerateSpec(r1.store, cfg, domain, tld, filter, service');
      && r2.failure.None?
      && r2.store.calls == r1.store.calls && r2.store.sleeps == r1.store.sleeps && r2.store.saves == r1.store.saves
      && r2.store.entries.Keys == r1.store.entries.Keys
      && |r2.yielded| == |r1.yielded|
  {
    var plan := PlanFor(Lower(domain), Selected(filter));
    var r1 := GenerateSpec(st, cfg, domain, tld, filter, service);
    RunTasksFills(Run([], None, st), cfg, tld, service, plan.tasks);
    RunTasksWarm(Run([], None, r1.store), cfg, tld, service', plan.tasks);
    RunTasksCount(Run([], None, st), cfg, tld, service, plan.tasks);
    RunTasksCount(Run([], None, r1.store), cfg, tld, service', plan.tasks);
  }

  /** `test` filtered by `B1` plans the four deletions `est`, `tst`, `tet`, `tes`. */
  lemma ExamplePlan()
    ensures PlanFor(Lower("test"), Selected(Some("B1")))
         == Plan([Task(B1, "est"), Task(B1, "tst"), Task(B1, "tet"), Task(B1, "tes")], false)
  {
    assert Lower("test") == "test";
    SelectedCodes();
    assert [B1][..0] == [];
    var w := "test";
    assert w[..0] + w[1..] == "est" && w[..1] + w[2..] == "tst" && w[..2] + w[3..] == "tet" && w[..3] + w[4..] == "tes";
    assert M.Deletions(w) == ["est", "tst", "tet", "tes"];
  }

  /** The four deletions of `test`, looked up with caching and checking off. */
  lemma ExampleRun(st: Store, service: string -> Record)
    ensures var tagged := map["freq" := JStr("[B1]")];
      RunTasks(Run([], None, st), Config(false, false), "com", service,
               [Task(B1, "est"), Task(B1, "tst"), Task(B1, "tet"), Task(B1, "tes")])
      == Run([tagged, tagged, tagged, tagged], None, st)
  {
    var tasks := [Task(B1, "est"), Task(B1, "tst"), Task(B1, "tet"), Task(B1, "tes")];
    RunTasksOffline(Run([], None, st), Config(false, false), "com", service, tasks);
    assert FreqTag(B1) == JStr("[B1]");
  }

  /** `test` / `com` / `B1` with caching and checking off yields
      `{"freq": "[B1]"}` four times and leaves the cache alone. */
  lemma GenerateExample(st: Store, service: string -> Record)
    ensures var r := GenerateSpec(st, Config(false, false), "test", "com", Some("B1"), service);
      var tagged := map["freq" := JStr("[B1]")];
      r == Run([tagged, tagged, tagged, tagged], None, st)
  {
    ExamplePlan();
    ExampleRun(st, service);
  }

  // ---------------------------------------------------------------------------
  // The generator

  /** `_check_cached_availability(typo, tld)`: the cache key is `typo.tld` and the
      miss path starts from `{}`. */
  method CheckCachedAvailability(cache: AvailabilityCache, typo: string, tld: string, service: string -> Record)
    returns (outcome: Outcome)
    modifies cache
    ensures Step(outcome, cache.State()) == LookupStep(old(cache.State()), cache.config, FullDomain(typo, tld), map[], service)
  {
    outcome := cache.Lookup(typo + "." + tld, map[], service);
  }

  /** One pass of the inner loop: look the typo up, tag the dictionary in place and
      yield it, or raise. */
  method Visit(cache: AvailabilityCache, task: Task, tld: string, service: string -> Record, yielded0: seq<Record>)
    returns (yielded: seq<Record>, failure: Option<Failure>)
    modifies cache
    ensures Run(yielded, failure, cache.State())
         == Advance(Run(yielded0, None, old(cache.State())), cache.config, tld, service, task)
  {
    var outcome := CheckCachedAvailability(cache, task.typo, tld, service);
    if outcome.Rejected? {
      return yielded0, Some(ApiRequestError(outcome.response));
    }
    var tagged := outcome.record["freq" := JStr("[" + Key(task.code) + "]")];
    if outcome.Aliased() {
      cache.entries := cache.entries[task.typo + "." + tld := tagged];
    }
    return yielded0 + [tagged], None;
  }

  /** The inner loop over the typos of one code. */
  method VisitAll(cache: AvailabilityCache, code: Code, typos: seq<string>, tld: string, service: string -> Record,
                  yielded0: seq<Record>)
    returns (yielded: seq<Record>, failure: Option<Failure>)
    modifies cache
    ensures Run(yielded, failure, cache.State())
         == RunTasks(Run(yielded0, None, old(cache.State())), cache.config, tld, service, TasksOf(code, typos))
  {
    ghost var start := Run(yielded0, None, cache.State());
    yielded, failure := yielded0, None;
    for t := 0 to |typos|
      invariant failure.None?
      invariant Run(yielded, failure, cache.State()) == RunTasks(start, cache.config, tld, service, TasksOf(code, typos[..t]))
    {
      assert TasksOf(code, typos[..t + 1])[..t] == TasksOf(code, typos[..t]);
      yielded, failure := Visit(cache, Task(code, typos[t]), tld, service, yielded);
      if failure.Some? {
        RunTasksPrefixFailed(start, cache.config, tld, service, TasksOf(code, typos[..t + 1]), TasksOf(code, typos));
        return;
      }
    }
    assert typos[..|typos|] == typos;
  }

  /** The plan grows by one code: a mutation that raises marks it crashed, any
      other appends its typos. */
  lemma PlanStep(word: string, done: seq<Code>, code: Code)
    requires !PlanFor(word, done).crashed
    ensures var next := PlanFor(word, done + [code]);
      match Mutate(word, code)
      case Failure(_) => next == Plan(PlanFor(word, done).tasks, true)
      case Success(typos) => next == Plan(PlanFor(word, done).tasks + TasksOf(code, typos), false)
  {
    assert (done + [code])[..|done + [code]| - 1] == done;
  }

  /** When the selection up to some code has crashed, the generator ends with
      `IndexError` after yielding what the codes before it yielded. */
  lemma GenerateCrashed(st: Store, cfg: Config, domain: string, tld: string, filter: Option<string>,
                        service: string -> Record, upto: seq<Code>)
    requires upto <= Selected(filter)
    requires PlanFor(Lower(domain), upto).crashed
    requires RunTasks(Run([], None, st), cfg, tld, service, PlanFor(Lower(domain), upto).tasks).failure.None?
    ensures GenerateSpec(st, cfg, domain, tld, filter, service)
         == RunTasks(Run([], None, st), cfg, tld, service, PlanFor(Lower(domain), upto).tasks).(failure := Some(IndexError))
  {
    PlanExtends(Lower(domain), upto, Selected(filter));
  }

  /** When a lookup raised, the generator ends there, whatever the plan holds after it. */
  lemma GenerateRaised(st: Store, cfg: Config, domain: string, tld: string, filter: Option<string>,
                       service: string -> Record, upto: seq<Code>)
    requires upto <= Selected(filter)
    requires RunTasks(Run([], None, st), cfg, tld, service, PlanFor(Lower(domain), upto).tasks).failure.Some?
    ensures GenerateSpec(st, cfg, domain, tld, filter, service)
         == RunTasks(Run([], None, st), cfg, tld, service, PlanFor(Lower(domain), upto).tasks)
  {
    var word := Lower(domain);
    PlanExtends(word, upto, Selected(filter));
    RunTasksPrefixFailed(Run([], None, st), cfg, tld, service, PlanFor(word, upto).tasks, PlanFor(word, Selected(filter)).tasks);
  }

  /** `generate_typos(domain, tld, filter)` drained to the end: the dictionaries it
      yields, the exception that ended it, if any, and the cache afterwards. */
  method GenerateTypos(cache: AvailabilityCache, domain: string, tld: string, filter: Option<string>,
                       service: string -> Record)
    returns (yielded: seq<Record>, failure: Option<Failure>)
    modifies cache
    ensures Run(yielded, failure, cache.State()) == GenerateSpec(old(cache.State()), cache.config, domain, tld, filter, service)
  {
    var word := Lower(domain);
    ghost var st := cache.State();
    ghost var start := Run([], None, st);
    yielded, failure := [], None;
    for c := 0 to |TypoGroups|
      invariant failure.None?
      invariant !PlanFor(word, SelectFrom(filter, TypoGroups[..c])).crashed
      invariant Run(yielded, failure, cache.State())
             == RunTasks(start, cache.config, tld, service, PlanFor(word, SelectFrom(filter, TypoGroups[..c])).tasks)
    {
      var code := TypoGroups[c];
      SelectFromStep(filter, c + 1);
      SelectFromPrefix(filter, TypoGroups[..c + 1], TypoGroups);
      ghost var done := SelectFrom(filter, TypoGroups[..c]);
      if Selects(filter, code) {
        assert SelectFrom(filter, TypoGroups[..c + 1]) == done + [code];
        PlanStep(word, done, code);
        var outcome := Typos(word, code);
        if outcome.Failure? {
          GenerateCrashed(st, cache.config, domain, tld, filter, service, done + [code]);
          MutateSpec(word, code);
          failure := Some(outcome.error);
          return;
        }
        RunTasksAppend(start, cache.config, tld, service, PlanFor(word, done).tasks, TasksOf(code, outcome.value));
        yielded, failure := VisitAll(cache, code, outcome.value, tld, service, yielded);
        if failure.Some? {
          GenerateRaised(st, cache.config, domain, tld, filter, service, done + [code]);
          return;
        }
      } else {
        assert SelectFrom(filter, TypoGroups[..c + 1]) == done;
      }
    }
    assert TypoGroups[..|TypoGroups|] == TypoGroups;
  }

  /** The selection from a prefix of a list of codes is a prefix of the selection
      from the whole list. */
  lemma {:induction false} SelectFromPrefix(filter: Option<string>, xs: seq<Code>, ys: seq<Code>)
    requires xs <= ys
    ensures SelectFrom(filter, xs) <= SelectFrom(filter, ys)
  {
    if |xs| < |ys| {
      SelectFromPrefix(filter, xs, ys[..|ys| - 1]);
    } else {
      assert xs == ys;
    }
  }
}
