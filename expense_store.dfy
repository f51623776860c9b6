/**
 * The expense store of src/expense.rs: `ExpenseList`, the loader that reads
 * the whole file through the record codec, and the operations that list,
 * sum and filter what was loaded, plus the append that writes one record.
 * The file is modelled by its content: `None` when it cannot be read.
 */
module ExpenseStore {
  import opened Wrappers
  import opened Text
  import opened PsvCodec

  /** Why a load fails. */
  datatype LoadError =
    | Unreadable                    // `?` on `read_file_content`: the file could not be opened or read
    | Malformed(cause: DecodeError) // the first line that does not decode

  /** The lines the loader visits: `content.trim().split('\n')`; there is always at least one. */
  function ReadLines(content: string): (r: seq<string>)
    ensures |r| >= 1
  {
    Split(Trim(content), '\n')
  }

  /** The entries a load pushes, and the failure it ends with, if any. */
  datatype LoadOutcome = LoadOutcome(entries: seq<Expense>, failure: Option<LoadError>)

  /** Each line decoded on its own, in file order. */
  function DecodeEach(lines: seq<string>, f: Formats): (rs: seq<Result<Expense, DecodeError>>)
    ensures |rs| == |lines|
    ensures forall k :: 0 <= k < |lines| ==> rs[k] == DecodeLine(lines[k], f)
  {
    seq(|lines|, k requires 0 <= k < |lines| => DecodeLine(lines[k], f))
  }

  /**
   * The loop's bookkeeping over the per-line results: the values pushed until
   * the first error, and that error, if any.
   */
  function Collect(rs: seq<Result<Expense, DecodeError>>): (o: LoadOutcome)
    ensures |o.entries| <= |rs|
    ensures o.failure.None? <==> |o.entries| == |rs|
  {
    if |rs| == 0 then LoadOutcome([], None)
    else match rs[0]
      case Err(e) => LoadOutcome([], Some(Malformed(e)))
      case Ok(x) =>
        var rest := Collect(rs[1..]);
        LoadOutcome([x] + rest.entries, rest.failure)
  }

  /**
   * Decoding lines in file order until the first one that fails: one entry
   * per line decoded, and the failure of the first line that does not decode.
   */
  function DecodeLines(lines: seq<string>, f: Formats): (o: LoadOutcome)
    ensures |o.entries| <= |lines|
    ensures o.failure.None? <==> |o.entries| == |lines|
  {
    Collect(DecodeEach(lines, f))
  }

  /**
   * An independent description of collecting per-line results: `entries`
   * are the values of the first results, in order, and `failure` is absent
   * when they are all the results, and otherwise the error right after them.
   */
  predicate CollectsAs(rs: seq<Result<Expense, DecodeError>>, entries: seq<Expense>, failure: Option<LoadError>)
  {
    && |entries| <= |rs|
    && (forall k :: 0 <= k < |entries| ==> rs[k] == Ok(entries[k]))
    && (failure.None? <==> |entries| == |rs|)
    && (failure.Some? ==> rs[|entries|].Err? && failure.value == Malformed(rs[|entries|].error))
  }

  /** `Collect` fits that description. */
  lemma {:induction false} CollectCollectsAs(rs: seq<Result<Expense, DecodeError>>)
    ensures CollectsAs(rs, Collect(rs).entries, Collect(rs).failure)
  {
    if |rs| > 0 && rs[0].Ok? {
      CollectCollectsAs(rs[1..]);
      var o, rest := Collect(rs), Collect(rs[1..]);
      assert o.entries == [rs[0].value] + rest.entries;
      forall k | 1 <= k < |o.entries| ensures rs[k] == Ok(o.entries[k]) {
        assert rs[k] == rs[1..][k - 1] && o.entries[k] == rest.entries[k - 1];
      }
      if o.failure.Some? {
        assert rs[|o.entries|] == rs[1..][|rest.entries|];
      }
    }
  }

  /** The description fits nothing else: whatever fits it is what `Collect` gives. */
  lemma {:induction false} CollectsAsCollect(rs: seq<Result<Expense, DecodeError>>, entries: seq<Expense>,
                                             failure: Option<LoadError>)
    requires CollectsAs(rs, entries, failure)
    ensures Collect(rs) == LoadOutcome(entries, failure)
  {
    if |entries| > 0 {
      assert rs[0] == Ok(entries[0]);
      forall k | 0 <= k < |entries| - 1 ensures rs[1..][k] == Ok(entries[1..][k]) {
        assert rs[1..][k] == rs[k + 1];
      }
      if failure.Some? {
        assert rs[1..][|entries| - 1] == rs[|entries|];
      }
      CollectsAsCollect(rs[1..], entries[1..], failure);
      assert entries == [entries[0]] + entries[1..];
    } else if |rs| > 0 {
      assert failure.Some?;
    }
  }

  /** Results that are all values collect completely, to those values in order. */
  lemma {:induction false} CollectAllOk(rs: seq<Result<Expense, DecodeError>>, results: seq<Expense>)
    requires |results| == |rs|
    requires forall k :: 0 <= k < |rs| ==> rs[k] == Ok(results[k])
    ensures Collect(rs) == LoadOutcome(results, None)
  {
    if |rs| > 0 {
      forall k | 0 <= k < |rs| - 1 ensures rs[1..][k] == Ok(results[1..][k]) {
        assert rs[1..][k] == rs[k + 1];
      }
      CollectAllOk(rs[1..], results[1..]);
      assert results == [results[0]] + results[1..];
    }
  }

  /**
   * The description of a load in terms of the lines: `entries` are the
   * decodings of the first lines, in order, and `failure` is absent when they
   * are all the lines, and otherwise the error of the line right after them.
   */
  predicate LoadsAs(lines: seq<string>, f: Formats, entries: seq<Expense>, failure: Option<LoadError>)
  {
    && |entries| <= |lines|
    && (forall k {:trigger DecodeLine(lines[k], f)} :: 0 <= k < |entries| ==> DecodeLine(lines[k], f) == Ok(entries[k]))
    && (failure.None? <==> |entries| == |lines|)
    && (failure.Some? ==>
          DecodeLine(lines[|entries|], f).Err?
          && failure.value == Malformed(DecodeLine(lines[|entries|], f).error))
  }

  /** `DecodeLines` fits that description. */
  lemma {:induction false} DecodeLinesLoadsAs(lines: seq<string>, f: Formats)
    ensures LoadsAs(lines, f, DecodeLines(lines, f).entries, DecodeLines(lines, f).failure)
  {
    CollectCollectsAs(DecodeEach(lines, f));
  }

  /** The description fits nothing else: whatever fits it is what `DecodeLines` gives. */
  lemma {:induction false} LoadsAsDecodeLines(lines: seq<string>, f: Formats, entries: seq<Expense>, failure: Option<LoadError>)
    requires LoadsAs(lines, f, entries, failure)
    ensures DecodeLines(lines, f) == LoadOutcome(entries, failure)
  {
    CollectsAsCollect(DecodeEach(lines, f), entries, failure);
  }

  /** Lines that all decode load completely, to their decodings in order. */
  lemma {:induction false} DecodeLinesAllDecode(lines: seq<string>, results: seq<Expense>, f: Formats)
    requires |results| == |lines|
    requires forall i :: 0 <= i < |lines| ==> DecodeLine(lines[i], f) == Ok(results[i])
    ensures DecodeLines(lines, f) == LoadOutcome(results, None)
  {
    CollectAllOk(DecodeEach(lines, f), results);
  }

  /** What `load_expenses_from_psv` does with a file whose content is `file` (`None`: unreadable). */
  function LoadPsv(file: Option<string>, f: Formats): (o: LoadOutcome)
    ensures file.None? ==> o == LoadOutcome([], Some(Unreadable))
    ensures file.Some? ==> |o.entries| <= |ReadLines(file.value)|
  {
    if file.None? then LoadOutcome([], Some(Unreadable)) else DecodeLines(ReadLines(file.value), f)
  }

  /** A load seen as a `Result`: the entries if every line decoded, else the first failure. */
  function LoadResult(file: Option<string>, f: Formats): (r: Result<seq<Expense>, LoadError>)
    ensures r.Ok? <==> LoadPsv(file, f).failure.None?
    ensures r.Ok? ==> r.value == LoadPsv(file, f).entries
    ensures r.Err? ==> LoadPsv(file, f).failure == Some(r.error)
  {
    var o := LoadPsv(file, f);
    if o.failure.None? then Ok(o.entries) else Err(o.failure.value)
  }

  /** `struct ExpenseList`: the entries loaded so far, in file order. */
  class ExpenseList {
    var expenseList: seq<Expense>

    /** `ExpenseList::new`. */
    constructor ()
      ensures expenseList == []
    {
      expenseList := [];
    }

    /**
     * `load_expenses_from_psv`: pushes one entry per line of the trimmed
     * content, in file order, and stops at the first line that fails; the
     * entries pushed before it stay.
     */
    method LoadExpensesFromPsv(file: Option<string>, f: Formats) returns (r: Result<(), LoadError>)
      modifies this
      ensures expenseList == old(expenseList) + LoadPsv(file, f).entries
      ensures r.Ok? <==> LoadPsv(file, f).failure.None?
      ensures r.Err? ==> LoadPsv(file, f).failure == Some(r.error)
    {
      if file.None? {
        return Err(Unreadable);
      }
      var lines := ReadLines(file.value);
      var failure := PushDecodedLines(lines, f);
      LoadsAsDecodeLines(lines, f, expenseList[|old(expenseList)|..], failure);
      assert expenseList == old(expenseList) + expenseList[|old(expenseList)|..];
      r := if failure.None? then Ok(()) else Err(failure.value);
    }

    /**
     * The loop of `load_expenses_from_psv`: decode and push each line in
     * turn, up to the first failure. What it pushes and how it ends is
     * described by `LoadsAs`.
     */
    method PushDecodedLines(lines: seq<string>, f: Formats) returns (failure: Option<LoadError>)
      modifies this
      ensures |old(expenseList)| <= |expenseList| && expenseList[..|old(expenseList)|] == old(expenseList)
      ensures LoadsAs(lines, f, expenseList[|old(expenseList)|..], failure)
    {
      ghost var pushed: seq<Expense> := [];
      var i := 0;
      while i < |lines|
        invariant 0 <= i <= |lines|
        invariant expenseList == old(expenseList) + pushed
        invariant |pushed| == i
        invariant forall k {:trigger DecodeLine(lines[k], f)} :: 0 <= k < i ==> DecodeLine(lines[k], f) == Ok(pushed[k])
      {
        var d := DecodeLine(lines[i], f);
        if d.Err? {
          assert expenseList[|old(expenseList)|..] == pushed;
          return Some(Malformed(d.error));
        }
        expenseList := expenseList + [d.value];
        pushed := pushed + [d.value];
        i := i + 1;
      }
      assert expenseList[|old(expenseList)|..] == pushed;
      return None;
    }
  }

  /** `get_expense_list_from_psv`: a fresh list, loaded. */
  method GetExpenseListFromPsv(file: Option<string>, f: Formats) returns (r: Result<ExpenseList, LoadError>)
    ensures r.Ok? <==> LoadPsv(file, f).failure.None?
    ensures r.Ok? ==> fresh(r.value) && r.value.expenseList == LoadPsv(file, f).entries
    ensures r.Err? ==> LoadPsv(file, f).failure == Some(r.error)
  {
    var list := new ExpenseList();
    var loaded := list.LoadExpensesFromPsv(file, f);
    if loaded.Err? {
      return Err(loaded.error);
    }
    return Ok(list);
  }

  /** `list_expenses`: the loaded entries in file order (their display is left out). */
  method ListExpenses(file: Option<string>, f: Formats) returns (r: Result<seq<Expense>, LoadError>)
    ensures r == LoadResult(file, f)
  {
    var list := GetExpenseListFromPsv(file, f);
    if list.Err? {
      return Err(list.error);
    }
    return Ok(list.value.expenseList);
  }

  /** The sum of the amounts, added in order from the first entry. */
  function Total(s: seq<Expense>): Amount
  {
    if |s| == 0 then 0.0 else Total(s[..|s| - 1]) + s[|s| - 1].amount
  }

  /** The total of two runs of entries is the sum of their totals. */
  lemma {:induction false} TotalAppend(a: seq<Expense>, b: seq<Expense>)
    ensures Total(a + b) == Total(a) + Total(b)
  {
    if |b| > 0 {
      assert (a + b)[..|a + b| - 1] == a + b[..|b| - 1];
      TotalAppend(a, b[..|b| - 1]);
    } else {
      assert a + b == a;
    }
  }

  /** With every amount positive, the total is positive exactly when there is an entry, and bounds each amount. */
  lemma {:induction false} TotalPositive(s: seq<Expense>)
    requires forall i :: 0 <= i < |s| ==> s[i].amount > 0.0
    ensures |s| > 0 <==> Total(s) > 0.0
    ensures forall i :: 0 <= i < |s| ==> s[i].amount <= Total(s)
  {
    if |s| > 0 {
      TotalPositive(s[..|s| - 1]);
      assert forall i :: 0 <= i < |s| - 1 ==> s[..|s| - 1][i] == s[i];
    }
  }

  /** `expense_total`: the sum of the amounts of all loaded entries, or the load's failure. */
  method ExpenseTotal(file: Option<string>, f: Formats) returns (r: Result<Amount, LoadError>)
    ensures LoadResult(file, f).Ok? ==> r == Ok(Total(LoadResult(file, f).value))
    ensures LoadResult(file, f).Err? ==> r == Err(LoadResult(file, f).error)
  {
    var list := GetExpenseListFromPsv(file, f);
    if list.Err? {
      return Err(list.error);
    }
    var entries := list.value.expenseList;
    var total: Amount := 0.0;
    for i := 0 to |entries|
      invariant total == Total(entries[..i])
    {
      assert entries[..i + 1][..i] == entries[..i];
      total := total + entries[i].amount;
    }
    assert entries[..|entries|] == entries;
    return Ok(total);
  }

  /** The filter arguments of `filter_expenses`; `None` omits that filter. */
  datatype Query = Query(category: Option<string>, tags: Option<seq<string>>, amount: Option<Amount>)

  /**
   * The tag flag as the loop in `filter_expenses` computes it: each query tag
   * overwrites the flag, so only the last one counts; false for an entry
   * without tags or an empty query.
   */
  predicate LastQueryTagPresent(entryTags: seq<string>, queryTags: seq<string>)
  {
    |entryTags| > 0 && |queryTags| > 0 && queryTags[|queryTags| - 1] in entryTags
  }

  /** The evident intent of the tag loop: some query tag is among the entry's tags. */
  predicate AnyQueryTagPresent(entryTags: seq<string>, queryTags: seq<string>)
  {
    exists i :: 0 <= i < |queryTags| && queryTags[i] in entryTags
  }

  /** The tag loop of the filter closure. */
  method TagsFlag(entryTags: seq<string>, queryTags: seq<string>) returns (flag: bool)
    ensures flag == LastQueryTagPresent(entryTags, queryTags)
  {
    flag := false;
    if |entryTags| == 0 {
      flag := false;
    } else {
      for i := 0 to |queryTags|
        invariant flag == (i > 0 && queryTags[i - 1] in entryTags)
      {
        flag := queryTags[i] in entryTags;
      }
    }
  }

  /** The last-tag flag implies the intended any-tag flag. */
  lemma {:induction false} LastTagImpliesAnyTag(entryTags: seq<string>, queryTags: seq<string>)
    ensures LastQueryTagPresent(entryTags, queryTags) ==> AnyQueryTagPresent(entryTags, queryTags)
  {
    if LastQueryTagPresent(entryTags, queryTags) {
      assert queryTags[|queryTags| - 1] in entryTags;
    }
  }

  /** For a one-tag query the two readings agree. */
  lemma {:induction false} SingleTagQueriesAgree(entryTags: seq<string>, queryTag: string)
    ensures LastQueryTagPresent(entryTags, [queryTag]) <==> AnyQueryTagPresent(entryTags, [queryTag])
  {
    if AnyQueryTagPresent(entryTags, [queryTag]) {
      assert [queryTag][0] in entryTags;
    }
  }

  /** Tags before the last in a query make no difference. */
  lemma {:induction false} EarlierQueryTagsIgnored(entryTags: seq<string>, earlier1: seq<string>, earlier2: seq<string>, last: string)
    ensures LastQueryTagPresent(entryTags, earlier1 + [last]) == LastQueryTagPresent(entryTags, earlier2 + [last])
  {
    assert (earlier1 + [last])[|earlier1|] == last && (earlier2 + [last])[|earlier2|] == last;
  }

  /** The entry tagged `work, urgent` is not kept by the query `urgent, missing`, although one of its tags was asked for. */
  lemma {:induction false} LastTagWinsExample()
    ensures !LastQueryTagPresent(["work", "urgent"], ["urgent", "missing"])
    ensures AnyQueryTagPresent(["work", "urgent"], ["urgent", "missing"])
  {
    var entryTags, queryTags := ["work", "urgent"], ["urgent", "missing"];
    assert "missing" != "work" && "missing" != "urgent" by {
      assert "missing"[0] != "work"[0];
      assert |"missing"| != |"urgent"|;
    }
    assert queryTags[0] in entryTags;
  }

  /**
   * The filter closure: the amount flag (exact equality), the category flag
   * (exact string equality) and the tag flag, joined by AND; an omitted
   * filter is true.
   */
  predicate Matches(e: Expense, q: Query)
  {
    && (q.amount.None? || q.amount.value == e.amount)
    && (q.category.None? || q.category.value == e.category)
    && (q.tags.None? || LastQueryTagPresent(e.tags, q.tags.value))
  }

  /** The entries that pass the filter, in their order. */
  function Filter(s: seq<Expense>, q: Query): (r: seq<Expense>)
    ensures |r| <= |s|
    ensures forall x :: x in r <==> x in s && Matches(x, q)
  {
    if |s| == 0 then [] else Filter(s[..|s| - 1], q) + (if Matches(s[|s| - 1], q) then [s[|s| - 1]] else [])
  }

  /** Filtering keeps order: the filter of a concatenation is the concatenation of the filters. */
  lemma {:induction false} FilterAppend(a: seq<Expense>, b: seq<Expense>, q: Query)
    ensures Filter(a + b, q) == Filter(a, q) + Filter(b, q)
  {
    if |b| == 0 {
      assert a + b == a;
    } else {
      assert (a + b)[..|a + b| - 1] == a + b[..|b| - 1];
      FilterAppend(a, b[..|b| - 1], q);
    }
  }

  /** Filtering twice with the same query is filtering once. */
  lemma {:induction false} FilterIdempotent(s: seq<Expense>, q: Query)
    ensures Filter(Filter(s, q), q) == Filter(s, q)
  {
    if |s| > 0 {
      var last := s[|s| - 1];
      var kept := if Matches(last, q) then [last] else [];
      FilterIdempotent(s[..|s| - 1], q);
      FilterAppend(Filter(s[..|s| - 1], q), kept, q);
      assert Filter(kept, q) == kept by {
        if Matches(last, q) { assert [last][..0] == []; }
      }
    }
  }

  /** With every filter omitted, everything is kept. */
  lemma {:induction false} FilterNothingOmitted(s: seq<Expense>)
    ensures Filter(s, Query(None, None, None)) == s
  {
    if |s| > 0 {
      var q := Query(None, None, None);
      FilterNothingOmitted(s[..|s| - 1]);
      assert Matches(s[|s| - 1], q);
      assert Filter(s, q) == s[..|s| - 1] + [s[|s| - 1]];
      assert s[..|s| - 1] + [s[|s| - 1]] == s;
    }
  }

  /**
   * `filter_expenses`: the loaded entries that pass the filter closure, in
   * file order, or the load's failure (their display is left out).
   */
  method FilterExpenses(category: Option<string>, tags: Option<seq<string>>, amount: Option<Amount>,
                        file: Option<string>, f: Formats)
    returns (r: Result<seq<Expense>, LoadError>)
    ensures LoadResult(file, f).Ok? ==>
      r == Ok(Filter(LoadResult(file, f).value, Query(category, tags, amount)))
    ensures LoadResult(file, f).Err? ==> r == Err(LoadResult(file, f).error)
  {
    var list := GetExpenseListFromPsv(file, f);
    if list.Err? {
      return Err(list.error);
    }
    var entries := list.value.expenseList;
    ghost var q := Query(category, tags, amount);
    var kept: seq<Expense> := [];
    for i := 0 to |entries|
      invariant kept == Filter(entries[..i], q)
    {
      var exp := entries[i];
      var amountFlag := if amount.Some? then amount.value == exp.amount else true;
      var categoryFlag := if category.Some? then category.value == exp.category else true;
      var tagsFlag := true;
      if tags.Some? {
        tagsFlag := TagsFlag(exp.tags, tags.value);
      }
      assert entries[..i + 1][..i] == entries[..i];
      if amountFlag && categoryFlag && tagsFlag {
        kept := kept + [exp];
      }
    }
    assert entries[..|entries|] == entries;
    return Ok(kept);
  }

  /** `write_expense_to_psv`: appends the record to the file, creating it when absent. */
  function WriteExpenseToPsv(file: Option<string>, e: Expense, f: Formats): (r: string)
    ensures file.Some? ==> |file.value| <= |r| && r[..|file.value|] == file.value
    ensures var n := if file.Some? then |file.value| else 0; r[n..] == ToPsvRecord(e, f)
  {
    (if file.Some? then file.value else "") + ToPsvRecord(e, f)
  }

  /** The file after appending the expenses in order, starting from no file. */
  function WriteAll(es: seq<Expense>, f: Formats): Option<string>
  {
    if |es| == 0 then None else Some(WriteExpenseToPsv(WriteAll(es[..|es| - 1], f), es[|es| - 1], f))
  }

  /** The record bodies of the expenses. */
  function Bodies(es: seq<Expense>, f: Formats): (r: seq<string>)
    ensures |r| == |es|
    ensures forall i :: 0 <= i < |es| ==> r[i] == RecordBody(es[i], f)
  {
    seq(|es|, i requires 0 <= i < |es| => RecordBody(es[i], f))
  }

  /** The expenses as they read back. */
  function ReadBackAll(es: seq<Expense>): (r: seq<Expense>)
    ensures |r| == |es|
    ensures forall i :: 0 <= i < |es| ==> r[i] == ReadBack(es[i])
  {
    seq(|es|, i requires 0 <= i < |es| => ReadBack(es[i]))
  }

  /** A file written by appends holds the record bodies, each ended by a newline. */
  lemma {:induction false} WriteAllContent(es: seq<Expense>, f: Formats)
    requires |es| >= 1
    ensures WriteAll(es, f) == Some(Join(Bodies(es, f), '\n') + "\n")
  {
    var n := |es|;
    RecordIsBodyAndNewline(es[n - 1], f);
    if n == 1 {
      assert es[..0] == [];
    } else {
      var front, b := Bodies(es[..n - 1], f), RecordBody(es[n - 1], f);
      WriteAllContent(es[..n - 1], f);
      assert Bodies(es, f) == front + [b];
      JoinSnoc(front, b, '\n');
      calc {
        WriteAll(es, f);
        Some(WriteExpenseToPsv(WriteAll(es[..n - 1], f), es[n - 1], f));
        Some((Join(front, '\n') + "\n") + (b + "\n"));
        { assert (Join(front, '\n') + "\n") + (b + "\n") == (Join(front, '\n') + ['\n'] + b) + "\n"; }
        Some(Join(front + [b], '\n') + "\n");
      }
    }
  }

  /**
   * Append then load: appending N encodable expenses one after another to an
   * absent file and loading it yields exactly N entries, in the order
   * written, each as the record codec reads it back.
   */
  lemma {:induction false} AppendThenLoad(es: seq<Expense>, f: Formats)
    requires |es| >= 1
    requires forall i :: 0 <= i < |es| ==> Encodable(es[i], f)
    ensures LoadPsv(WriteAll(es, f), f) == LoadOutcome(ReadBackAll(es), None)
  {
    var bodies := Bodies(es, f);
    forall i | 0 <= i < |es|
      ensures |bodies[i]| > 0 && NoEdgeSpace(bodies[i]) && '\n' !in bodies[i]
      ensures DecodeLine(bodies[i], f) == Ok(ReadBack(es[i]))
    {
      RecordBodyEdges(es[i], f);
      DecodeRecordBody(es[i], f);
    }
    WriteAllContent(es, f);
    ReadLinesOfJoin(bodies);
    DecodeLinesAllDecode(bodies, ReadBackAll(es), f);
  }

  /** Lines that are non-empty, free of newlines and of edge whitespace, each ended by a newline, are read back as they are. */
  lemma {:induction false} ReadLinesOfJoin(lines: seq<string>)
    requires |lines| >= 1
    requires forall i :: 0 <= i < |lines| ==> |lines[i]| > 0 && NoEdgeSpace(lines[i]) && '\n' !in lines[i]
    ensures ReadLines(Join(lines, '\n') + "\n") == lines
  {
    var joined := Join(lines, '\n');
    JoinEdges(lines, '\n');
    assert IsWhitespace('\n');
    TrimDropsTail(joined, "\n");
    SplitJoin(lines, '\n');
  }

  /** Reading back keeps every amount, so it keeps the total. */
  lemma {:induction false} TotalReadBack(es: seq<Expense>)
    ensures Total(ReadBackAll(es)) == Total(es)
  {
    if |es| > 0 {
      assert ReadBackAll(es)[..|es| - 1] == ReadBackAll(es[..|es| - 1]);
      TotalReadBack(es[..|es| - 1]);
    }
  }

  /** Three records of 100.0, 200.0 and 744.0 load and total 1044.0. */
  lemma {:induction false} ThreeRecordTotal(e1: Expense, e2: Expense, e3: Expense, f: Formats)
    requires Encodable(e1, f) && Encodable(e2, f) && Encodable(e3, f)
    requires e1.amount == 100.0 && e2.amount == 200.0 && e3.amount == 744.0
    ensures LoadResult(WriteAll([e1, e2, e3], f), f) == Ok(ReadBackAll([e1, e2, e3]))
    ensures Total(ReadBackAll([e1, e2, e3])) == 1044.0
  {
    var es := [e1, e2, e3];
    assert forall i :: 0 <= i < |es| ==> Encodable(es[i], f);
    AppendThenLoad(es, f);
    TotalReadBack(es);
    TotalOfThree(e1, e2, e3);
  }

  /** The total of three entries is the sum of their amounts. */
  lemma {:induction false} TotalOfThree(e1: Expense, e2: Expense, e3: Expense)
    ensures Total([e1, e2, e3]) == e1.amount + e2.amount + e3.amount
  {
    var es := [e1, e2, e3];
    assert es[..2] == [e1, e2] && es[..2][..1] == [e1] && es[..2][..1][..0] == [];
    assert Total([]) == 0.0;
    assert Total([e1]) == e1.amount;
    assert Total([e1, e2]) == e1.amount + e2.amount;
  }

  /** An empty (or blank) file does not load: its one line has no third field. */
  lemma {:induction false} EmptyFileDoesNotLoad(content: string, f: Formats)
    requires Trim(content) == ""
    ensures LoadPsv(Some(content), f) == LoadOutcome([], Some(Malformed(MissingField(2))))
  {
    assert ReadLines(content) == [""];
    assert Trim("") == "";
    assert DecodeLine("", f) == Err(MissingField(2));
  }
}
