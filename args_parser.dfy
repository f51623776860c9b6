/**
 * The command-line scanner of src/utils/args_parser.rs. The argument list
 * (`env::args()`, program name first) is a parameter; a flag sits at an even
 * index from 2 on and its value at the index after it. Printing a message and
 * calling `exit(1)`, and the panics of out-of-range indexing and `expect`,
 * become error results.
 */
module ArgsParser {
  import opened Wrappers
  import opened Text
  import opened PsvCodec

  /** Why scanning stops without a result. */
  datatype ArgError =
    | DescriptionNotFilterable   // "Description is not filterable!", then exit(1)
    | InvalidArgument(arg: string) // "Invalid argument ...", then exit(1)
    | UsageExit                  // "Usage", then exit(1): more than two arguments, odd count
    | MissingValue(index: nat)   // panic: `args[i+1]` past the end of the list
    | UnparsableAmount(text: string) // panic: `expect` on a failed `parse::<f64>`
    | MissingCommand             // panic: `args[1]` on an empty list

  /** The key under which `filter_parse_args` stores the value of a filter flag. */
  function FilterKey(flag: string): (r: Option<string>)
    ensures r.Some? <==> flag in {"--amount", "--category", "--tags"}
    ensures r.Some? ==> flag == "--" + r.value
  {
    if flag == "--amount" then Some("amount")
    else if flag == "--category" then Some("category")
    else if flag == "--tags" then Some("tags")
    else None
  }

  /** `filter_parse_args` from index `i` on, with the filters stored so far. */
  function ScanFilters(args: seq<string>, i: nat, filters: map<string, string>)
    : (r: Result<map<string, string>, ArgError>)
    ensures r.Ok? ==> filters.Keys <= r.value.Keys
    ensures r.Err? && r.error.MissingValue? ==> r.error.index == |args|
    decreases |args| - i
  {
    if i >= |args| then Ok(filters)
    else if i % 2 != 0 then ScanFilters(args, i + 1, filters)
    else if FilterKey(args[i]).Some? then
      if i + 1 >= |args| then Err(MissingValue(i + 1))
      else ScanFilters(args, i + 1, filters[FilterKey(args[i]).value := Trim(args[i + 1])])
    else if args[i] == "--description" then Err(DescriptionNotFilterable)
    else Err(InvalidArgument(args[i]))
  }

  /** `filter_parse_args`: the loop over the indices from 2, acting on the even ones. */
  method FilterParseArgs(args: seq<string>) returns (r: Result<map<string, string>, ArgError>)
    ensures r == ScanFilters(args, 2, map[])
  {
    var filters: map<string, string> := map[];
    var i := 2;
    while i < |args|
      invariant 2 <= i
      invariant ScanFilters(args, 2, map[]) == ScanFilters(args, i, filters)
      decreases |args| - i
    {
      if i % 2 == 0 {
        match args[i]
        case "--amount" =>
          if i + 1 >= |args| { return Err(MissingValue(i + 1)); }
          filters := filters["amount" := Trim(args[i + 1])];
        case "--category" =>
          if i + 1 >= |args| { return Err(MissingValue(i + 1)); }
          filters := filters["category" := Trim(args[i + 1])];
        case "--tags" =>
          if i + 1 >= |args| { return Err(MissingValue(i + 1)); }
          filters := filters["tags" := Trim(args[i + 1])];
        case "--description" =>
          return Err(DescriptionNotFilterable);
        case _ =>
          return Err(InvalidArgument(args[i]));
      }
      i := i + 1;
    }
    return Ok(filters);
  }

  /** An even index from `i` on that holds `flag`. */
  predicate FlagFrom(args: seq<string>, i: nat, flag: string)
  {
    exists j :: i <= j < |args| && j % 2 == 0 && args[j] == flag
  }

  /**
   * The filter scan succeeds exactly when every even index from `i` on holds
   * one of the three filter flags and is followed by its value.
   */
  lemma {:induction false} ScanFiltersOkIff(args: seq<string>, i: nat, filters: map<string, string>)
    ensures ScanFilters(args, i, filters).Ok? <==>
      forall j :: i <= j < |args| && j % 2 == 0 ==> FilterKey(args[j]).Some? && j + 1 < |args|
    decreases |args| - i
  {
    if i < |args| {
      if i % 2 != 0 {
        ScanFiltersOkIff(args, i + 1, filters);
      } else if FilterKey(args[i]).Some? && i + 1 < |args| {
        ScanFiltersOkIff(args, i + 1, filters[FilterKey(args[i]).value := Trim(args[i + 1])]);
      }
    }
  }

  /** A scan that succeeds stores only the keys `amount`, `category` and `tags`, besides those it started with. */
  lemma {:induction false} ScanFiltersKeys(args: seq<string>, i: nat, filters: map<string, string>)
    requires ScanFilters(args, i, filters).Ok?
    ensures ScanFilters(args, i, filters).value.Keys <= filters.Keys + {"amount", "category", "tags"}
    decreases |args| - i
  {
    if i < |args| {
      if i % 2 != 0 {
        ScanFiltersKeys(args, i + 1, filters);
      } else {
        ScanFiltersKeys(args, i + 1, filters[FilterKey(args[i]).value := Trim(args[i + 1])]);
      }
    }
  }

  /** A key whose flag does not occur from `i` on keeps the value it had (or stays absent). */
  lemma {:induction false} ScanFiltersKeeps(args: seq<string>, i: nat, filters: map<string, string>,
                                            flag: string)
    requires FilterKey(flag).Some? && !FlagFrom(args, i, flag)
    requires ScanFilters(args, i, filters).Ok?
    ensures var m := ScanFilters(args, i, filters).value; var k := FilterKey(flag).value;
      (k in m <==> k in filters) && (k in filters ==> m[k] == filters[k])
    decreases |args| - i
  {
    if i < |args| {
      assert !FlagFrom(args, i + 1, flag);
      if i % 2 != 0 {
        ScanFiltersKeeps(args, i + 1, filters, flag);
      } else {
        assert args[i] != flag;
        assert FilterKey(args[i]) != FilterKey(flag);
        ScanFiltersKeeps(args, i + 1, filters[FilterKey(args[i]).value := Trim(args[i + 1])], flag);
      }
    }
  }

  /** A repeated filter flag keeps its last value, trimmed. */
  lemma {:induction false} ScanFiltersLastWins(args: seq<string>, i: nat, filters: map<string, string>, j: nat)
    requires i <= j < |args| && j % 2 == 0 && FilterKey(args[j]).Some?
    requires !FlagFrom(args, j + 1, args[j])
    requires ScanFilters(args, i, filters).Ok?
    ensures var m := ScanFilters(args, i, filters).value;
      j + 1 < |args| && FilterKey(args[j]).value in m && m[FilterKey(args[j]).value] == Trim(args[j + 1])
    decreases j - i
  {
    ScanFiltersOkIff(args, i, filters);
    if i < j {
      if i % 2 != 0 {
        ScanFiltersLastWins(args, i + 1, filters, j);
      } else {
        ScanFiltersLastWins(args, i + 1, filters[FilterKey(args[i]).value := Trim(args[i + 1])], j);
      }
    } else {
      ScanFiltersKeeps(args, j + 1, filters[FilterKey(args[j]).value := Trim(args[j + 1])], args[j]);
    }
  }

  /** The filter flag `flag` never occurring in a successful scan from index 2 leaves its key out. */
  lemma {:induction false} FilterAbsentFlag(args: seq<string>, flag: string)
    requires FilterKey(flag).Some? && !FlagFrom(args, 2, flag)
    requires ScanFilters(args, 2, map[]).Ok?
    ensures FilterKey(flag).value !in ScanFilters(args, 2, map[]).value
  {
    ScanFiltersKeeps(args, 2, map[], flag);
  }

  /** With an even number of arguments the value after a flag is always there. */
  lemma {:induction false} ScanFiltersInBounds(args: seq<string>, i: nat, filters: map<string, string>)
    requires |args| % 2 == 0
    ensures !(ScanFilters(args, i, filters).Err? && ScanFilters(args, i, filters).error.MissingValue?)
    decreases |args| - i
  {
    if i < |args| {
      if i % 2 != 0 {
        ScanFiltersInBounds(args, i + 1, filters);
      } else if FilterKey(args[i]).Some? {
        assert i + 1 < |args|;
        ScanFiltersInBounds(args, i + 1, filters[FilterKey(args[i]).value := Trim(args[i + 1])]);
      }
    }
  }

  /** What `add_parse_args` returns: amount, description, category and tags. */
  datatype AddArgs = AddArgs(amount: Amount, description: Option<string>, category: string, tags: seq<string>)

  /** The values `add_parse_args` starts from: no description, empty category and no tags. */
  const ADD_DEFAULTS: AddArgs := AddArgs(0.0, None, "", [])

  /** The flags `add_parse_args` accepts. */
  predicate IsAddFlag(flag: string)
  {
    flag == "--description" || flag == "--amount" || flag == "--category" || flag == "--tags"
  }

  /** One accepted flag with its value: the description and category as given, the amount trimmed and parsed, the tags trimmed and split on `,`. */
  function AddStep(acc: AddArgs, flag: string, value: string, f: Formats): (r: Result<AddArgs, ArgError>)
    requires IsAddFlag(flag)
    ensures r.Err? <==> flag == "--amount" && f.parseAmount(Trim(value)).None?
    ensures r.Err? ==> r.error == UnparsableAmount(Trim(value))
    ensures r.Ok? ==> forall g :: IsAddFlag(g) && g != flag ==> SameField(r.value, acc, g)
  {
    if flag == "--description" then Ok(acc.(description := Some(value)))
    else if flag == "--amount" then
      match f.parseAmount(Trim(value))
      case None => Err(UnparsableAmount(Trim(value)))
      case Some(a) => Ok(acc.(amount := a))
    else if flag == "--category" then Ok(acc.(category := value))
    else Ok(acc.(tags := Split(Trim(value), ',')))
  }

  /** `add_parse_args` from index `i` on, with the values set so far. */
  function ScanAdd(args: seq<string>, i: nat, acc: AddArgs, f: Formats): (r: Result<AddArgs, ArgError>)
    ensures r.Err? && r.error.MissingValue? ==> r.error.index == |args|
    ensures r.Err? ==> !r.error.DescriptionNotFilterable? && !r.error.UsageExit?
    decreases |args| - i
  {
    if i >= |args| then Ok(acc)
    else if i % 2 != 0 then ScanAdd(args, i + 1, acc, f)
    else if IsAddFlag(args[i]) then
      if i + 1 >= |args| then Err(MissingValue(i + 1))
      else match AddStep(acc, args[i], args[i + 1], f)
        case Err(e) => Err(e)
        case Ok(next) => ScanAdd(args, i + 1, next, f)
    else Err(InvalidArgument(args[i]))
  }

  /** `add_parse_args`: the loop over the indices from 2, acting on the even ones; `parse` is `str::parse::<f64>`. */
  method AddParseArgs(args: seq<string>, f: Formats) returns (r: Result<AddArgs, ArgError>)
    ensures r == ScanAdd(args, 2, ADD_DEFAULTS, f)
  {
    var description: Option<string> := None;
    var amount: Amount := 0.0;
    var category: string := "";
    var tags: seq<string> := [];
    var i := 2;
    while i < |args|
      invariant 2 <= i
      invariant ScanAdd(args, 2, ADD_DEFAULTS, f) == ScanAdd(args, i, AddArgs(amount, description, category, tags), f)
      decreases |args| - i
    {
      if i % 2 == 0 {
        match args[i]
        case "--description" =>
          if i + 1 >= |args| { return Err(MissingValue(i + 1)); }
          description := Some(args[i + 1]);
        case "--amount" =>
          if i + 1 >= |args| { return Err(MissingValue(i + 1)); }
          var parsed := f.parseAmount(Trim(args[i + 1]));
          if parsed.None? { return Err(UnparsableAmount(Trim(args[i + 1]))); }
          amount := parsed.value;
        case "--category" =>
          if i + 1 >= |args| { return Err(MissingValue(i + 1)); }
          category := args[i + 1];
        case "--tags" =>
          if i + 1 >= |args| { return Err(MissingValue(i + 1)); }
          tags := Split(Trim(args[i + 1]), ',');
        case _ =>
          return Err(InvalidArgument(args[i]));
      }
      i := i + 1;
    }
    return Ok(AddArgs(amount, description, category, tags));
  }

  /** The field of the add arguments that `flag` sets agrees in `a` and `b`. */
  predicate SameField(a: AddArgs, b: AddArgs, flag: string)
  {
    if flag == "--description" then a.description == b.description
    else if flag == "--amount" then a.amount == b.amount
    else if flag == "--category" then a.category == b.category
    else a.tags == b.tags
  }

  /**
   * The add scan succeeds exactly when every even index from `i` on holds one
   * of the four add flags, is followed by its value, and, for `--amount`, the
   * trimmed value parses.
   */
  lemma {:induction false} ScanAddOkIff(args: seq<string>, i: nat, acc: AddArgs, f: Formats)
    ensures ScanAdd(args, i, acc, f).Ok? <==>
      forall j :: i <= j < |args| && j % 2 == 0 ==>
        IsAddFlag(args[j]) && j + 1 < |args| &&
        (args[j] == "--amount" ==> f.parseAmount(Trim(args[j + 1])).Some?)
    decreases |args| - i
  {
    if i < |args| {
      if i % 2 != 0 {
        ScanAddOkIff(args, i + 1, acc, f);
      } else if IsAddFlag(args[i]) && i + 1 < |args| {
        var step := AddStep(acc, args[i], args[i + 1], f);
        if step.Ok? {
          ScanAddOkIff(args, i + 1, step.value, f);
        }
      }
    }
  }

  /** A flag that does not occur from `i` on leaves its field as it was. */
  lemma {:induction false} ScanAddKeeps(args: seq<string>, i: nat, acc: AddArgs, f: Formats, flag: string)
    requires IsAddFlag(flag) && !FlagFrom(args, i, flag)
    requires ScanAdd(args, i, acc, f).Ok?
    ensures SameField(ScanAdd(args, i, acc, f).value, acc, flag)
    decreases |args| - i
  {
    if i < |args| {
      assert !FlagFrom(args, i + 1, flag);
      if i % 2 != 0 {
        ScanAddKeeps(args, i + 1, acc, f, flag);
      } else {
        var next := AddStep(acc, args[i], args[i + 1], f).value;
        assert SameField(next, acc, flag);
        ScanAddKeeps(args, i + 1, next, f, flag);
      }
    }
  }

  /**
   * A repeated add flag keeps its last value: the description and the
   * category exactly as given, the amount as parsed from the trimmed text,
   * the tags as the trimmed text split on `,`.
   */
  lemma {:induction false} ScanAddLastWins(args: seq<string>, i: nat, acc: AddArgs, f: Formats, j: nat)
    requires i <= j < |args| && j % 2 == 0 && IsAddFlag(args[j])
    requires !FlagFrom(args, j + 1, args[j])
    requires ScanAdd(args, i, acc, f).Ok?
    ensures j + 1 < |args|
    ensures var r := ScanAdd(args, i, acc, f).value;
      && (args[j] == "--description" ==> r.description == Some(args[j + 1]))
      && (args[j] == "--amount" ==> Some(r.amount) == f.parseAmount(Trim(args[j + 1])))
      && (args[j] == "--category" ==> r.category == args[j + 1])
      && (args[j] == "--tags" ==> r.tags == Split(Trim(args[j + 1]), ','))
    decreases j - i
  {
    if i < j {
      if i % 2 != 0 {
        ScanAddLastWins(args, i + 1, acc, f, j);
      } else {
        ScanAddLastWins(args, i + 1, AddStep(acc, args[i], args[i + 1], f).value, f, j);
      }
    } else {
      var next := AddStep(acc, args[j], args[j + 1], f).value;
      ScanAddKeeps(args, j + 1, next, f, args[j]);
    }
  }

  /** Flags that are absent keep their defaults: no description, an empty category, no tags, amount 0. */
  lemma {:induction false} AddDefaults(args: seq<string>, f: Formats)
    requires ScanAdd(args, 2, ADD_DEFAULTS, f).Ok?
    ensures var r := ScanAdd(args, 2, ADD_DEFAULTS, f).value;
      && (!FlagFrom(args, 2, "--description") ==> r.description == None)
      && (!FlagFrom(args, 2, "--amount") ==> r.amount == 0.0)
      && (!FlagFrom(args, 2, "--category") ==> r.category == "")
      && (!FlagFrom(args, 2, "--tags") ==> r.tags == [])
  {
    if !FlagFrom(args, 2, "--description") { ScanAddKeeps(args, 2, ADD_DEFAULTS, f, "--description"); }
    if !FlagFrom(args, 2, "--amount") { ScanAddKeeps(args, 2, ADD_DEFAULTS, f, "--amount"); }
    if !FlagFrom(args, 2, "--category") { ScanAddKeeps(args, 2, ADD_DEFAULTS, f, "--category"); }
    if !FlagFrom(args, 2, "--tags") { ScanAddKeeps(args, 2, ADD_DEFAULTS, f, "--tags"); }
  }

  /** With an even number of arguments the value after an add flag is always there. */
  lemma {:induction false} ScanAddInBounds(args: seq<string>, i: nat, acc: AddArgs, f: Formats)
    requires |args| % 2 == 0
    ensures !(ScanAdd(args, i, acc, f).Err? && ScanAdd(args, i, acc, f).error.MissingValue?)
    decreases |args| - i
  {
    if i < |args| {
      if i % 2 != 0 {
        ScanAddInBounds(args, i + 1, acc, f);
      } else if IsAddFlag(args[i]) {
        assert i + 1 < |args|;
        var step := AddStep(acc, args[i], args[i + 1], f);
        if step.Ok? {
          ScanAddInBounds(args, i + 1, step.value, f);
        }
      }
    }
  }

  /** What `parse_args` goes on to do. */
  datatype Command =
    | ShowUsage                              // prints "Usage"
    | ListCommand                            // `list`
    | ShowTotal                              // `total`
    | AddExpense(add: AddArgs)               // `add` with the scanned values
    | FilterCommand(filters: map<string, string>) // `filter` with the scanned filters

  /**
   * The dispatch of `parse_args` on the number of arguments (program name
   * included): one shows usage, two select `help`, `list` or `total`, an odd
   * number above two exits with usage, and an even number above two scans for
   * `add` or `filter`. Because of the odd-count exit, the value after a flag
   * is always there.
   */
  function Dispatch(args: seq<string>, f: Formats): (r: Result<Command, ArgError>)
    ensures |args| == 0 ==> r == Err(MissingCommand)
    ensures |args| == 1 ==> r == Ok(ShowUsage)
    ensures |args| == 2 ==>
      && (r == Ok(ListCommand) <==> args[1] == "list")
      && (r == Ok(ShowTotal) <==> args[1] == "total")
      && (r == Ok(ShowUsage) <==> args[1] != "list" && args[1] != "total")
    ensures |args| > 2 && |args| % 2 != 0 ==> r == Err(UsageExit)
    ensures |args| > 2 && |args| % 2 == 0 && args[1] == "add" ==>
      var scanned := ScanAdd(args, 2, ADD_DEFAULTS, f);
      && (r.Ok? <==> scanned.Ok?)
      && (r.Ok? ==> r.value == AddExpense(scanned.value))
      && (r.Err? ==> r.error == scanned.error)
    ensures |args| > 2 && |args| % 2 == 0 && args[1] == "filter" ==>
      var scanned := ScanFilters(args, 2, map[]);
      && (r.Ok? <==> scanned.Ok?)
      && (r.Ok? ==> r.value == FilterCommand(scanned.value))
      && (r.Err? ==> r.error == scanned.error)
    ensures |args| > 2 && |args| % 2 == 0 && args[1] != "add" && args[1] != "filter" ==> r == Ok(ShowUsage)
    ensures 1 <= |args| <= 2 ==> r.Ok?
    ensures !(r.Err? && r.error.MissingValue?)
  {
    if |args| == 1 then Ok(ShowUsage)
    else if |args| == 2 then
      if args[1] == "help" then Ok(ShowUsage)
      else if args[1] == "list" then Ok(ListCommand)
      else if args[1] == "total" then Ok(ShowTotal)
      else Ok(ShowUsage)
    else if |args| % 2 != 0 then Err(UsageExit)
    else if |args| == 0 then Err(MissingCommand)
    else if args[1] == "add" then
      ScanAddInBounds(args, 2, ADD_DEFAULTS, f);
      match ScanAdd(args, 2, ADD_DEFAULTS, f)
      case Err(e) => Err(e)
      case Ok(a) => Ok(AddExpense(a))
    else if args[1] == "filter" then
      ScanFiltersInBounds(args, 2, map[]);
      match ScanFilters(args, 2, map[])
      case Err(e) => Err(e)
      case Ok(m) => Ok(FilterCommand(m))
    else Ok(ShowUsage)
  }

  /**
   * An `add` command line with an even number of arguments succeeds exactly
   * when every flag is an add flag and every `--amount` value parses once
   * trimmed; otherwise it stops with the error of the first bad flag.
   */
  lemma {:induction false} DispatchAddOkIff(args: seq<string>, f: Formats)
    requires |args| > 2 && |args| % 2 == 0 && args[1] == "add"
    ensures Dispatch(args, f).Ok? <==>
      forall j :: 2 <= j < |args| && j % 2 == 0 ==>
        IsAddFlag(args[j]) && (args[j] == "--amount" ==> f.parseAmount(Trim(args[j + 1])).Some?)
  {
    ScanAddOkIff(args, 2, ADD_DEFAULTS, f);
  }

  /**
   * A `filter` command line with an even number of arguments succeeds exactly
   * when every flag is `--amount`, `--category` or `--tags`.
   */
  lemma {:induction false} DispatchFilterOkIff(args: seq<string>, f: Formats)
    requires |args| > 2 && |args| % 2 == 0 && args[1] == "filter"
    ensures Dispatch(args, f).Ok? <==>
      forall j :: 2 <= j < |args| && j % 2 == 0 ==> FilterKey(args[j]).Some?
  {
    ScanFiltersOkIff(args, 2, map[]);
  }

  /** `parse_args`: the dispatch, running the add or filter scan where it applies. */
  method ParseArgs(args: seq<string>, f: Formats) returns (r: Result<Command, ArgError>)
    ensures r == Dispatch(args, f)
  {
    if |args| == 1 {
      r := Ok(ShowUsage);
    } else if |args| == 2 {
      if args[1] == "help" {
        r := Ok(ShowUsage);
      } else if args[1] == "list" {
        r := Ok(ListCommand);
      } else if args[1] == "total" {
        r := Ok(ShowTotal);
      } else {
        r := Ok(ShowUsage);
      }
    } else if |args| % 2 != 0 {
      r := Err(UsageExit);
    } else if |args| == 0 {
      r := Err(MissingCommand);
    } else if args[1] == "add" {
      var scanned := AddParseArgs(args, f);
      r := if scanned.Ok? then Ok(AddExpense(scanned.value)) else Err(scanned.error);
    } else if args[1] == "filter" {
      var scanned := FilterParseArgs(args);
      r := if scanned.Ok? then Ok(FilterCommand(scanned.value)) else Err(scanned.error);
    } else {
      r := Ok(ShowUsage);
    }
  }
}
