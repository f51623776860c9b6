/**
 * The record codec of src/expense.rs: `Expense::to_psv_record` writes one
 * expense as the line `timestamp|category|amount|"description"|"tags"\n`,
 * and the body of the loop in `ExpenseList::load_expenses_from_psv` reads
 * one such line back. The format has no escaping of `|`, `,` or `"`.
 */
module PsvCodec {
  import opened Wrappers
  import opened Text

  /** An `f64` amount, abstracted as a real number (no rounding). */
  type Amount = real

  /** An instant to millisecond precision: what a record keeps of a `DateTime<Utc>`. */
  datatype Timestamp = Timestamp(epochMillis: int)

  /** `struct Expense`. */
  datatype Expense = Expense(
    amount: Amount,
    category: string,
    tags: seq<string>,
    datetime: Timestamp,
    description: Option<string>)

  /**
   * The formatting and parsing the codec borrows from the standard library and
   * chrono: `{}` and `str::parse::<f64>` for amounts, `format(TIME_FORMAT)` and
   * `DateTime::parse_from_str(_, TIME_FORMAT)` for timestamps, where TIME_FORMAT
   * is `%Y-%m-%d %H:%M:%S%.3f%z`.
   */
  datatype Formats = Formats(
    formatAmount: Amount -> string,
    parseAmount: string -> Option<Amount>,
    formatTime: Timestamp -> string,
    parseTime: string -> Option<Timestamp>)

  /** `Expense::new`: absent tags become the empty list; the clock reading `now` is passed in. */
  function NewExpense(amount: Amount, description: Option<string>, category: string,
                      tags: Option<seq<string>>, now: Timestamp): (e: Expense)
    ensures e.amount == amount && e.category == category && e.description == description
    ensures e.datetime == now
    ensures tags.None? ==> e.tags == []
    ensures tags.Some? ==> e.tags == tags.value
  {
    Expense(amount, category, if tags.Some? then tags.value else [], now, description)
  }

  /** `description.as_ref().unwrap_or(&"".to_string())`. */
  function DescriptionText(d: Option<string>): string
  {
    if d.Some? then d.value else ""
  }

  /** A field wrapped in one pair of double quotes. */
  function Quote(s: string): (r: string)
    ensures |r| == |s| + 2 && r[0] == '"' && r[|r| - 1] == '"'
  {
    "\"" + s + "\""
  }

  /** A quoted field starts and ends with a quote, which is not whitespace. */
  lemma {:induction false} QuoteEdges(s: string)
    ensures NoEdgeSpace(Quote(s))
  {
    assert !IsWhitespace('"');
  }

  /** A character UTF-8 encodes in one byte. */
  predicate IsAscii(c: char)
  {
    c as int < 128
  }

  /**
   * `&s[1..s.len() - 1]` slices by bytes: it succeeds exactly when byte 1
   * and byte `len - 1` are character boundaries with `1 <= len - 1`, that is
   * when the string has at least two characters and its first and last
   * characters are one byte each.
   */
  predicate CanUnquote(s: string)
  {
    |s| >= 2 && IsAscii(s[0]) && IsAscii(s[|s| - 1])
  }

  /** `&s[1..s.len() - 1]`: drops the first and the last character (one byte each). */
  function Unquote(s: string): (r: string)
    requires CanUnquote(s)
    ensures |r| == |s| - 2
    ensures forall i :: 0 <= i < |r| ==> r[i] == s[i + 1]
    ensures s[0] == '"' && s[|s| - 1] == '"' ==> Quote(r) == s
  {
    s[1..|s| - 1]
  }

  /** `Expense::to_psv_record`. */
  function ToPsvRecord(e: Expense, f: Formats): string
  {
    f.formatTime(e.datetime) + "|" + ToLower(e.category) + "|" + f.formatAmount(e.amount)
      + "|" + Quote(DescriptionText(e.description)) + "|" + Quote(ToLower(Join(e.tags, ','))) + "\n"
  }

  /** The five fields of the record of `e`, in the order they are written. */
  function RecordFields(e: Expense, f: Formats): (r: seq<string>)
    ensures |r| == 5
  {
    [f.formatTime(e.datetime), ToLower(e.category), f.formatAmount(e.amount),
     Quote(DescriptionText(e.description)), Quote(ToLower(Join(e.tags, ',')))]
  }

  /** The record without its line terminator. */
  function RecordBody(e: Expense, f: Formats): string
  {
    Join(RecordFields(e, f), '|')
  }

  /** The record is its five fields joined by `|`, followed by exactly one newline. */
  lemma {:induction false} RecordIsBodyAndNewline(e: Expense, f: Formats)
    ensures ToPsvRecord(e, f) == RecordBody(e, f) + "\n"
  {
    var fs := RecordFields(e, f);
    JoinFive(fs[0], fs[1], fs[2], fs[3], fs[4], '|');
    assert fs == [fs[0], fs[1], fs[2], fs[3], fs[4]];
  }

  /** Five pieces joined are the pieces with the delimiter between each two. */
  lemma {:induction false} JoinFive(a: string, b: string, c: string, d: string, e: string, sep: char)
    ensures Join([a, b, c, d, e], sep) == a + [sep] + b + [sep] + c + [sep] + d + [sep] + e
  {
    var ps := [a, b, c, d, e];
    assert Join(ps[4..], sep) == e;
    assert Join(ps[3..], sep) == d + [sep] + e by { assert ps[3..][1..] == ps[4..]; }
    assert Join(ps[2..], sep) == c + [sep] + d + [sep] + e by { assert ps[2..][1..] == ps[3..]; }
    assert Join(ps[1..], sep) == b + [sep] + c + [sep] + d + [sep] + e by { assert ps[1..][1..] == ps[2..]; }
  }

  /** A string that can stand as a field: it cannot be cut by the field or the line split. */
  predicate FieldSafe(s: string)
  {
    '|' !in s && '\n' !in s
  }

  /**
   * The record's shape: when no field holds `|` or a newline, splitting the
   * record on `|` gives back exactly its five fields, and the only newline is
   * the last character. Category and the joined tags are lowercased and the
   * description (empty when absent) and the tags are wrapped in quotes.
   */
  lemma {:induction false} RecordShape(e: Expense, f: Formats)
    requires FieldSafe(f.formatTime(e.datetime)) && FieldSafe(f.formatAmount(e.amount))
    requires FieldSafe(e.category) && FieldSafe(DescriptionText(e.description))
    requires FieldSafe(Join(e.tags, ','))
    ensures var r := ToPsvRecord(e, f);
      && |r| > 0 && r[|r| - 1] == '\n' && '\n' !in r[..|r| - 1]
      && Split(r[..|r| - 1], '|') == [
           f.formatTime(e.datetime), ToLower(e.category), f.formatAmount(e.amount),
           "\"" + DescriptionText(e.description) + "\"", "\"" + ToLower(Join(e.tags, ',')) + "\""]
  {
    RecordIsBodyAndNewline(e, f);
    var r := ToPsvRecord(e, f);
    assert r[..|r| - 1] == RecordBody(e, f);
    FieldsSafe(e, f);
    SplitJoin(RecordFields(e, f), '|');
    JoinAvoids(RecordFields(e, f), '|', '\n');
  }

  /** The five fields of a record free of `|` and newlines are themselves free of them. */
  lemma {:induction false} FieldsSafe(e: Expense, f: Formats)
    requires FieldSafe(f.formatTime(e.datetime)) && FieldSafe(f.formatAmount(e.amount))
    requires FieldSafe(e.category) && FieldSafe(DescriptionText(e.description))
    requires FieldSafe(Join(e.tags, ','))
    ensures forall i :: 0 <= i < 5 ==> FieldSafe(RecordFields(e, f)[i])
  {
    ToLowerAvoids(e.category, '|');
    ToLowerAvoids(e.category, '\n');
    ToLowerAvoids(Join(e.tags, ','), '|');
    ToLowerAvoids(Join(e.tags, ','), '\n');
  }

  /** Why one line fails to decode. */
  datatype DecodeError =
    | BadAmount(text: string)        // `?` on `parse::<f64>` of the trimmed third field
    | BadTimestamp(text: string)     // `?` on `DateTime::parse_from_str` of the first field
    | MissingField(index: nat)       // panic: `fields[index]` on a line with fewer fields
    | UnquotableField(index: nat)    // panic: `[1..len - 1]` on a field under two bytes, or cutting a character

  /**
   * One iteration of the loop in `load_expenses_from_psv`: the line is trimmed,
   * split on `|`, and its fields decoded.
   */
  function DecodeLine(line: string, f: Formats): (r: Result<Expense, DecodeError>)
    ensures r.Ok? ==> r.value.description.Some?
    ensures r.Ok? ==> |r.value.tags| >= 1
  {
    DecodeFieldList(Split(Trim(line), '|'), f)
  }

  /**
   * The struct literal of `load_expenses_from_psv` over the split fields. Its
   * fields are evaluated in the order written (amount, description, category,
   * tags, timestamp), so the first failure in that order is the one reported.
   * Fields past the fifth are ignored.
   */
  function DecodeFieldList(fields: seq<string>, f: Formats): (r: Result<Expense, DecodeError>)
    ensures r.Ok? ==> r.value.description.Some?
    ensures r.Ok? ==> |r.value.tags| >= 1
  {
    if |fields| < 3 then Err(MissingField(2))
    else match f.parseAmount(Trim(fields[2]))
      case None => Err(BadAmount(Trim(fields[2])))
      case Some(amount) =>
        if |fields| < 4 then Err(MissingField(3))
        else if !CanUnquote(fields[3]) then Err(UnquotableField(3))
        else if |fields| < 5 then Err(MissingField(4))
        else if !CanUnquote(fields[4]) then Err(UnquotableField(4))
        else match f.parseTime(fields[0])
          case None => Err(BadTimestamp(fields[0]))
          case Some(t) =>
            Ok(Expense(amount, fields[1], Split(Trim(Unquote(fields[4])), ','), t, Some(Unquote(fields[3]))))
  }

  /**
   * A line decodes exactly when it has at least five fields, its two quoted
   * fields can be sliced (two characters or more, one-byte first and last
   * characters) and both the trimmed amount and the timestamp parse.
   */
  lemma {:induction false} DecodeLineSucceeds(line: string, f: Formats)
    ensures var fields := Split(Trim(line), '|');
      DecodeLine(line, f).Ok? <==>
        && |fields| >= 5 && CanUnquote(fields[3]) && CanUnquote(fields[4])
        && f.parseAmount(Trim(fields[2])).Some? && f.parseTime(fields[0]).Some?
  {
  }

  /** A line with fewer than five fields never decodes; with fewer than three it fails before any parse. */
  lemma {:induction false} DecodeShortLine(line: string, f: Formats)
    requires |Split(Trim(line), '|')| < 5
    ensures DecodeLine(line, f).Err?
    ensures |Split(Trim(line), '|')| < 3 ==> DecodeLine(line, f) == Err(MissingField(2))
  {
  }

  /**
   * A quoted field whose first or last character takes more than one byte
   * cannot be sliced: the line fails there even when everything else parses.
   */
  lemma {:induction false} QuotedFieldCutsCharacter(line: string, f: Formats)
    requires var fields := Split(Trim(line), '|');
      && |fields| >= 4 && f.parseAmount(Trim(fields[2])).Some?
      && |fields[3]| >= 2 && !IsAscii(fields[3][|fields[3]| - 1])
    ensures DecodeLine(line, f) == Err(UnquotableField(3))
  {
  }

  /** Decoding sees only the first five fields. */
  lemma {:induction false} DecodeIgnoresExtraFields(line1: string, line2: string, f: Formats)
    requires |Split(Trim(line1), '|')| >= 5 && |Split(Trim(line2), '|')| >= 5
    requires Split(Trim(line1), '|')[..5] == Split(Trim(line2), '|')[..5]
    ensures DecodeLine(line1, f) == DecodeLine(line2, f)
  {
    var a, b := Split(Trim(line1), '|'), Split(Trim(line2), '|');
    assert forall i :: 0 <= i < 5 ==> a[i] == a[..5][i] && b[i] == b[..5][i];
  }

  /**
   * Decoding a line assembled from five fields: the category comes back as
   * written (no lowercasing), the description is the quoted text with the
   * quotes dropped, and the tags are the quoted text trimmed and split on `,`.
   */
  lemma {:induction false} DecodeFields(ts: string, category: string, amountText: string, description: string,
                     tagText: string, f: Formats)
    requires FieldSafe(ts) && FieldSafe(category) && FieldSafe(amountText)
    requires FieldSafe(description) && FieldSafe(tagText)
    requires NoLeadingSpace(ts)
    requires f.parseAmount(Trim(amountText)).Some? && f.parseTime(ts).Some?
    ensures DecodeLine(Join([ts, category, amountText, Quote(description), Quote(tagText)], '|'), f)
         == Ok(Expense(f.parseAmount(Trim(amountText)).value, category, Split(Trim(tagText), ','),
                       f.parseTime(ts).value, Some(description)))
  {
    var fields := [ts, category, amountText, Quote(description), Quote(tagText)];
    assert FieldSafe(Quote(description)) && FieldSafe(Quote(tagText));
    SplitJoinedLine(fields);
    assert Unquote(Quote(description)) == description;
    assert Unquote(Quote(tagText)) == tagText;
  }

  /** A line joined from fields free of `|`, with no whitespace at its two ends, splits back into them. */
  lemma {:induction false} SplitJoinedLine(fields: seq<string>)
    requires |fields| >= 1
    requires forall i :: 0 <= i < |fields| ==> FieldSafe(fields[i])
    requires NoLeadingSpace(fields[0]) && NoTrailingSpace(fields[|fields| - 1])
    ensures Split(Trim(Join(fields, '|')), '|') == fields
  {
    JoinEdges(fields, '|');
    TrimNoEdgeSpace(Join(fields, '|'));
    SplitJoin(fields, '|');
  }

  /**
   * A line joined from fields free of `|` and newlines, with no whitespace at
   * its two ends, is non-empty, untouched by trimming and free of newlines.
   */
  lemma {:induction false} JoinedLineEdges(fields: seq<string>)
    requires |fields| >= 2
    requires forall i :: 0 <= i < |fields| ==> FieldSafe(fields[i])
    requires NoLeadingSpace(fields[0]) && NoTrailingSpace(fields[|fields| - 1])
    ensures |Join(fields, '|')| > 0 && NoEdgeSpace(Join(fields, '|')) && '\n' !in Join(fields, '|')
  {
    JoinEdges(fields, '|');
    JoinAvoids(fields, '|', '\n');
  }

  /** Decoding depends only on the trimmed line. */
  lemma {:induction false} DecodeOfTrimmed(line: string, f: Formats)
    ensures DecodeLine(Trim(line), f) == DecodeLine(line, f)
  {
    TrimNoEdgeSpace(Trim(line));
  }

  /** A line terminator after a line with no whitespace at its ends does not change its decoding. */
  lemma {:induction false} DecodeIgnoresNewline(body: string, f: Formats)
    requires |body| > 0 && NoEdgeSpace(body)
    ensures DecodeLine(body + "\n", f) == DecodeLine(body, f)
  {
    assert IsWhitespace('\n');
    TrimDropsTail(body, "\n");
    TrimNoEdgeSpace(body);
  }

  /**
   * What the round trip needs of an expense, since nothing is escaped: no
   * field holds `|` or a newline, no tag holds `,`, the outer tags have no
   * surrounding whitespace (the tag field is trimmed before it is split), the
   * timestamp does not start with whitespace (the line is trimmed), and the
   * amount and timestamp formats read back what they wrote.
   */
  predicate Encodable(e: Expense, f: Formats)
  {
    var ts := f.formatTime(e.datetime);
    var amountText := f.formatAmount(e.amount);
    && FieldSafe(ts) && NoLeadingSpace(ts) && f.parseTime(ts) == Some(e.datetime)
    && FieldSafe(amountText) && f.parseAmount(Trim(amountText)) == Some(e.amount)
    && FieldSafe(e.category) && FieldSafe(DescriptionText(e.description))
    && (forall i :: 0 <= i < |e.tags| ==> FieldSafe(e.tags[i]) && ',' !in e.tags[i])
    && (|e.tags| > 0 ==> NoLeadingSpace(e.tags[0]) && NoTrailingSpace(e.tags[|e.tags| - 1]))
  }

  /**
   * What reading back the record of `e` yields: the category and the tags
   * lowercased, an empty tag list as the one-element list `[""]`, and the
   * description always present (`None` as `Some("")`).
   */
  function ReadBack(e: Expense): (r: Expense)
    ensures r.amount == e.amount && r.datetime == e.datetime
    ensures r.description.Some? && |r.tags| >= 1
  {
    Expense(e.amount, ToLower(e.category), if |e.tags| == 0 then [""] else MapLower(e.tags),
            e.datetime, Some(DescriptionText(e.description)))
  }

  /**
   * A tag list free of `|`, newlines and `,`, with no whitespace at its two
   * outer ends, survives joining, lowercasing, trimming and splitting,
   * lowercased; the empty list comes back as one empty tag.
   */
  lemma {:induction false} TagTextRoundTrip(tags: seq<string>)
    requires forall i :: 0 <= i < |tags| ==> FieldSafe(tags[i]) && ',' !in tags[i]
    requires |tags| > 0 ==> NoLeadingSpace(tags[0]) && NoTrailingSpace(tags[|tags| - 1])
    ensures FieldSafe(Join(tags, ','))
    ensures Split(Trim(ToLower(Join(tags, ','))), ',') == if |tags| == 0 then [""] else MapLower(tags)
  {
    JoinAvoids(tags, ',', '|');
    JoinAvoids(tags, ',', '\n');
    if |tags| == 0 {
      assert Join(tags, ',') == "";
      assert ToLower("") == "" && Trim("") == "";
    } else {
      ToLowerJoin(tags, ',');
      var lowered := MapLower(tags);
      forall i | 0 <= i < |tags| ensures ',' !in lowered[i] {
        ToLowerAvoids(tags[i], ',');
      }
      ToLowerEdges(tags[0]);
      ToLowerEdges(tags[|tags| - 1]);
      assert !IsWhitespace(',');
      SplitTrimmedJoin(lowered, ',');
    }
  }

  /** The tag list of an encodable expense survives joining, lowercasing, trimming and splitting. */
  lemma {:induction false} TagsRoundTrip(e: Expense, f: Formats)
    requires Encodable(e, f)
    ensures FieldSafe(Join(e.tags, ','))
    ensures Split(Trim(ToLower(Join(e.tags, ','))), ',') == ReadBack(e).tags
  {
    TagTextRoundTrip(e.tags);
  }

  /** The record of an encodable expense, without its newline, decodes to `ReadBack(e)`. */
  lemma {:induction false} DecodeRecordBody(e: Expense, f: Formats)
    requires Encodable(e, f)
    ensures DecodeLine(RecordBody(e, f), f) == Ok(ReadBack(e))
  {
    TagsRoundTrip(e, f);
    ToLowerAvoids(e.category, '|');
    ToLowerAvoids(e.category, '\n');
    ToLowerAvoids(Join(e.tags, ','), '|');
    ToLowerAvoids(Join(e.tags, ','), '\n');
    DecodeFields(f.formatTime(e.datetime), ToLower(e.category), f.formatAmount(e.amount),
                 DescriptionText(e.description), ToLower(Join(e.tags, ',')), f);
  }

  /** The record body starts with the timestamp and ends with a quote, so trimming leaves it alone. */
  lemma {:induction false} RecordBodyEdges(e: Expense, f: Formats)
    requires Encodable(e, f)
    ensures |RecordBody(e, f)| > 0 && NoEdgeSpace(RecordBody(e, f))
    ensures '\n' !in RecordBody(e, f)
  {
    TagsRoundTrip(e, f);
    FieldsSafe(e, f);
    var fs := RecordFields(e, f);
    assert NoLeadingSpace(fs[0]);
    QuoteEdges(ToLower(Join(e.tags, ',')));
    JoinedLineEdges(fs);
  }

  /**
   * Round trip: decoding the record of an encodable expense gives back its
   * amount, timestamp and description (present), and its category and tags
   * lowercased.
   */
  lemma {:induction false} RoundTrip(e: Expense, f: Formats)
    requires Encodable(e, f)
    ensures DecodeLine(ToPsvRecord(e, f), f) == Ok(ReadBack(e))
  {
    RecordIsBodyAndNewline(e, f);
    RecordBodyEdges(e, f);
    DecodeIgnoresNewline(RecordBody(e, f), f);
    DecodeRecordBody(e, f);
  }

  /**
   * With a lowercase category, a non-empty list of lowercase tags and a
   * present description, the round trip is the identity.
   */
  lemma {:induction false} RoundTripExact(e: Expense, f: Formats)
    requires Encodable(e, f)
    requires IsLower(e.category) && |e.tags| > 0
    requires forall i :: 0 <= i < |e.tags| ==> IsLower(e.tags[i])
    requires e.description.Some?
    ensures DecodeLine(ToPsvRecord(e, f), f) == Ok(e)
  {
    RoundTrip(e, f);
    assert MapLower(e.tags) == e.tags;
  }

  /** An absent description reads back as the empty description. */
  lemma {:induction false} AbsentDescriptionReadsBackEmpty(e: Expense, f: Formats)
    requires Encodable(e, f) && e.description.None?
    ensures DecodeLine(ToPsvRecord(e, f), f).Ok?
    ensures DecodeLine(ToPsvRecord(e, f), f).value.description == Some("")
  {
    RoundTrip(e, f);
  }

  /** An empty tag list reads back as the list holding one empty tag. */
  lemma {:induction false} EmptyTagsReadBackAsOneEmptyTag(e: Expense, f: Formats)
    requires Encodable(e, f) && e.tags == []
    ensures DecodeLine(ToPsvRecord(e, f), f).Ok?
    ensures DecodeLine(ToPsvRecord(e, f), f).value.tags == [""]
  {
    RoundTrip(e, f);
  }

  /**
   * A record line joined from `|`-free fields, with no whitespace at its
   * ends, decodes as its field list.
   */
  lemma {:induction false} DecodeJoinedRecord(fields: seq<string>, f: Formats)
    requires |fields| >= 2
    requires forall i :: 0 <= i < |fields| ==> FieldSafe(fields[i])
    requires NoLeadingSpace(fields[0]) && NoTrailingSpace(fields[|fields| - 1])
    ensures DecodeLine(Join(fields, '|') + "\n", f) == DecodeFieldList(fields, f)
  {
    SplitJoinedLine(fields);
    JoinedLineEdges(fields);
    DecodeIgnoresNewline(Join(fields, '|'), f);
  }

  /** The record of an expense whose description is `a|b`, as the six pieces a split on `|` finds. */
  lemma {:induction false} PipeDescriptionRecord(e: Expense, f: Formats)
    requires e.description == Some("a|b")
    ensures ToPsvRecord(e, f) ==
      Join([f.formatTime(e.datetime), ToLower(e.category), f.formatAmount(e.amount),
            "\"a", "b\"", Quote(ToLower(Join(e.tags, ',')))], '|') + "\n"
  {
    RecordIsBodyAndNewline(e, f);
    var fs := RecordFields(e, f);
    var six := [fs[0], fs[1], fs[2], "\"a", "b\"", fs[4]];
    assert fs[3] == "\"a|b\"";
    assert Join(six[5..], '|') == fs[4];
    assert Join(six[4..], '|') == "b\"" + "|" + fs[4] by { assert six[4..][1..] == six[5..]; }
    assert Join(six[3..], '|') == "\"a" + "|" + "b\"" + "|" + fs[4] by { assert six[3..][1..] == six[4..]; }
    assert Join(fs[4..], '|') == fs[4];
    assert Join(fs[3..], '|') == fs[3] + "|" + fs[4] by { assert fs[3..][1..] == fs[4..]; }
    assert Join(fs[2..], '|') == Join(six[2..], '|') by { assert fs[2..][1..] == fs[3..] && six[2..][1..] == six[3..]; }
    assert Join(fs[1..], '|') == Join(six[1..], '|') by { assert fs[1..][1..] == fs[2..] && six[1..][1..] == six[2..]; }
  }

  /**
   * A description holding `|` is not read back: the format does not escape
   * it, so the record splits into six fields. The description and the tags
   * come back empty (the two halves of `"a|b"` lose their end characters),
   * and the real tag field is ignored as a sixth field.
   */
  lemma {:induction false} PipeInDescriptionShifts(e: Expense, f: Formats)
    requires e.description == Some("a|b")
    requires FieldSafe(f.formatTime(e.datetime)) && NoLeadingSpace(f.formatTime(e.datetime))
    requires f.parseTime(f.formatTime(e.datetime)) == Some(e.datetime)
    requires FieldSafe(f.formatAmount(e.amount)) && f.parseAmount(Trim(f.formatAmount(e.amount))) == Some(e.amount)
    requires FieldSafe(e.category) && FieldSafe(Join(e.tags, ','))
    ensures DecodeLine(ToPsvRecord(e, f), f) == Ok(Expense(e.amount, ToLower(e.category), [""], e.datetime, Some("")))
  {
    var six := [f.formatTime(e.datetime), ToLower(e.category), f.formatAmount(e.amount),
                "\"a", "b\"", Quote(ToLower(Join(e.tags, ',')))];
    PipeDescriptionRecord(e, f);
    ToLowerAvoids(e.category, '|');
    ToLowerAvoids(e.category, '\n');
    ToLowerAvoids(Join(e.tags, ','), '|');
    ToLowerAvoids(Join(e.tags, ','), '\n');
    assert forall i :: 0 <= i < 6 ==> FieldSafe(six[i]);
    assert !IsWhitespace('"');
    DecodeJoinedRecord(six, f);
    assert Unquote(six[3]) == "" && Unquote(six[4]) == "";
    assert Trim("") == "";
  }

  /** A tag holding `,` is not read back as one tag: the format does not escape it. */
  lemma {:induction false} CommaInTagSplits(e: Expense, f: Formats)
    requires e.tags == ["a,b"] && Encodable(e.(tags := ["a", "b"]), f)
    ensures DecodeLine(ToPsvRecord(e, f), f).Ok?
    ensures DecodeLine(ToPsvRecord(e, f), f).value.tags == ["a", "b"]
  {
    var e' := e.(tags := ["a", "b"]);
    assert Join(e'.tags, ',') == "a,b";
    assert RecordFields(e, f) == RecordFields(e', f);
    RecordIsBodyAndNewline(e, f);
    RecordIsBodyAndNewline(e', f);
    RoundTrip(e', f);
    LowerWithoutCapitals("a");
    LowerWithoutCapitals("b");
    assert MapLower(e'.tags) == ["a", "b"];
  }
}
