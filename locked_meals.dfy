/**
 * `ordersToCSV` of the locked-meals page: a fixed 14-column header line
 * followed by one line per order whose fields are each wrapped in double
 * quotes, with every embedded quote doubled (section 2, rule 7 of RFC 4180).
 */
module LockedMeals {
  import opened Wrappers
  import opened Strings

  datatype UserRef = UserRef(name: Option<string>, phone: Option<string>, email: Option<string>)
  datatype NamedRef = NamedRef(name: Option<string>)

  /** An order as the backend returns it; absent fields are `None`, numbers are integers. */
  datatype Order = Order(
    id: string,
    userId: Option<UserRef>,
    buildingId: Option<NamedRef>,
    flatId: Option<NamedRef>,
    mealDate: Option<string>,
    mealType: Option<string>,
    quantity: Option<int>,
    unitPrice: Option<int>,
    totalPrice: Option<int>,
    status: Option<string>,
    isPaid: Option<bool>,
    createdAt: Option<string>)

  const ColumnCount := 14

  /** The column names of the export, in column order. */
  function HeaderName(i: nat): string
  {
    match i
    case 0 => "_id"
    case 1 => "mealDate"
    case 2 => "mealType"
    case 3 => "userName"
    case 4 => "userPhone"
    case 5 => "userEmail"
    case 6 => "building"
    case 7 => "flat"
    case 8 => "quantity"
    case 9 => "unitPrice"
    case 10 => "totalPrice"
    case 11 => "status"
    case 12 => "isPaid"
    case _ => "createdAt"
  }

  /** The `headers` array: one name per column. */
  function Headers(): (r: seq<string>)
    ensures |r| == ColumnCount
  {
    seq(ColumnCount, i requires 0 <= i < ColumnCount => HeaderName(i))
  }

  /** No column name contains a quote, so the bare header line needs no escaping. */
  lemma HeaderNamesUnquoted()
    ensures |Headers()| == ColumnCount
    ensures forall i :: 0 <= i < |Headers()| ==> |Headers()[i]| > 0 && '"' !in Headers()[i]
  {
    forall i | 0 <= i < ColumnCount ensures |HeaderName(i)| > 0 && '"' !in HeaderName(i) {
    }
  }

  /** `headers.join(",")`: the names are written bare, without quotes. */
  function HeaderLine(): string
  {
    Join(Headers(), ",")
  }

  /** `String(x ?? "")` for an optional number. */
  function NumberField(x: Option<int>): string {
    if x.Some? then IntToString(x.value) else ""
  }

  /** `String(x ?? "")` for an optional boolean. */
  function BoolField(x: Option<bool>): string {
    if x.None? then "" else if x.value then "true" else "false"
  }

  /** The 14 raw (unquoted) values of one order, in header order. */
  function RowFields(o: Order): (r: seq<string>)
    ensures |r| == ColumnCount
  {
    [ o.id,
      OrEmpty(o.mealDate),
      OrEmpty(o.mealType),
      if o.userId.Some? then OrEmpty(o.userId.value.name) else "",
      if o.userId.Some? then OrEmpty(o.userId.value.phone) else "",
      if o.userId.Some? then OrEmpty(o.userId.value.email) else "",
      if o.buildingId.Some? then OrEmpty(o.buildingId.value.name) else "",
      if o.flatId.Some? then OrEmpty(o.flatId.value.name) else "",
      NumberField(o.quantity),
      NumberField(o.unitPrice),
      NumberField(o.totalPrice),
      OrEmpty(o.status),
      BoolField(o.isPaid),
      OrEmpty(o.createdAt) ]
  }

  /** `String(v).replace(/"/g, '""')`. */
  function Escape(v: string): string {
    if v == [] then []
    else (if v[0] == '"' then "\"\"" else [v[0]]) + Escape(v[1..])
  }

  /** Escaping never shortens a value; it changes exactly the values that hold a double quote. */
  lemma {:induction false} EscapeChangesOnlyQuotes(v: string)
    ensures |Escape(v)| >= |v|
    ensures '"' !in v ==> Escape(v) == v
    ensures '"' in v ==> |Escape(v)| > |v|
  {
    if v != [] {
      EscapeChangesOnlyQuotes(v[1..]);
      assert '"' in v <==> v[0] == '"' || '"' in v[1..] by {
        assert v == [v[0]] + v[1..];
      }
    }
  }

  /** One field as written: wrapped in quotes, inner quotes doubled. */
  function Quote(v: string): string {
    "\"" + Escape(v) + "\""
  }

  function QuoteAll(vs: seq<string>): (r: seq<string>)
    ensures |r| == |vs|
  {
    if vs == [] then [] else [Quote(vs[0])] + QuoteAll(vs[1..])
  }

  /** The data line of one order. */
  function RowLine(o: Order): string {
    Join(QuoteAll(RowFields(o)), ",")
  }

  function RowLines(orders: seq<Order>): (r: seq<string>)
    ensures |r| == |orders|
  {
    if orders == [] then [] else [RowLine(orders[0])] + RowLines(orders[1..])
  }

  lemma {:induction false} RowLinesAt(orders: seq<Order>, i: int)
    requires 0 <= i < |orders|
    ensures RowLines(orders)[i] == RowLine(orders[i])
  {
    if i > 0 {
      RowLinesAt(orders[1..], i - 1);
    }
  }

  lemma {:induction false} RowLinesSnoc(orders: seq<Order>, o: Order)
    ensures RowLines(orders + [o]) == RowLines(orders) + [RowLine(o)]
  {
    if orders == [] {
      assert [] + [o] == [o];
    } else {
      assert (orders + [o])[1..] == orders[1..] + [o];
      RowLinesSnoc(orders[1..], o);
    }
  }

  /** The lines array: the header line, then one line per order, in input order. */
  function CsvLines(orders: seq<Order>): (r: seq<string>)
    ensures |r| == |orders| + 1
    ensures r[0] == HeaderLine()
    ensures r[1..] == RowLines(orders)
  {
    [HeaderLine()] + RowLines(orders)
  }

  /** Line i + 1 of the document is the line of order i: the orders keep their order. */
  lemma CsvLinesInOrder(orders: seq<Order>)
    ensures forall i :: 0 <= i < |orders| ==> CsvLines(orders)[i + 1] == RowLine(orders[i])
  {
    forall i | 0 <= i < |orders| ensures CsvLines(orders)[i + 1] == RowLine(orders[i]) {
      RowLinesAt(orders, i);
    }
  }

  /** `ordersToCSV(orders)`; `None` stands for an absent list. */
  /** The lines of one more order: the prefix grows by that order's line. */
  lemma RowLinesPrefix(orders: seq<Order>, i: int)
    requires 0 <= i < |orders|
    ensures RowLines(orders[..i + 1]) == RowLines(orders[..i]) + [RowLine(orders[i])]
  {
    assert orders[..i + 1] == orders[..i] + [orders[i]];
    RowLinesSnoc(orders[..i], orders[i]);
  }

  /** The body of the `forEach`: build the row, quote each value, join with commas. */
  method WriteRow(o: Order) returns (line: string)
    ensures line == RowLine(o)
  {
    var row := RowFields(o);
    line := Join(QuoteAll(row), ",");
  }

  method OrdersToCsv(orders: Option<seq<Order>>) returns (csv: string)
    ensures orders.None? || orders.value == [] ==> csv == ""
    ensures orders.Some? && orders.value != [] ==> csv == Join(CsvLines(orders.value), "\n")
  {
    if orders.None? || |orders.value| == 0 {
      return "";
    }
    var os := orders.value;
    var header := HeaderLine();
    var lines := [header];
    var i := 0;
    while i < |os|
      invariant 0 <= i <= |os|
      invariant lines == [header] + RowLines(os[..i])
    {
      var line := WriteRow(os[i]);
      RowLinesPrefix(os, i);
      lines := lines + [line];
      i := i + 1;
    }
    assert os[..i] == os;
    assert lines == CsvLines(os);
    csv := Join(lines, "\n");
  }

  // ---- Reading a data line back (RFC 4180 escaped fields) ----

  /**
   * Reads the inside of a quoted field, just after its opening quote, up to
   * the lone quote that closes it; `""` stands for one quote. Returns the
   * value and what follows the closing quote.
   */
  function ParseQuoted(s: string): (r: Option<(string, string)>)
    ensures r.Some? ==> |r.value.1| < |s|
    decreases |s|
  {
    if s == [] then None
    else if s[0] == '"' then
      if |s| >= 2 && s[1] == '"' then
        match ParseQuoted(s[2..])
        case None => None
        case Some((v, rest)) => Some(("\"" + v, rest))
      else Some(("", s[1..]))
    else
      match ParseQuoted(s[1..])
      case None => None
      case Some((v, rest)) => Some(([s[0]] + v, rest))
  }

  /** Reads a line of one or more quoted fields separated by commas. */
  function ParseRecord(s: string): Option<seq<string>>
    decreases |s|
  {
    if s == [] || s[0] != '"' then None
    else
      match ParseQuoted(s[1..])
      case None => None
      case Some((v, rest)) =>
        if rest == [] then Some([v])
        else if rest[0] != ',' then None
        else
          match ParseRecord(rest[1..])
          case None => None
          case Some(vs) => Some([v] + vs)
  }

  /** Un-doubling: the escaped body followed by the closing quote reads back as the value. */
  lemma {:induction false} ParseEscaped(v: string, tail: string)
    requires tail == [] || tail[0] != '"'
    ensures ParseQuoted(Escape(v) + "\"" + tail) == Some((v, tail))
  {
    if v == [] {
      assert Escape(v) + "\"" + tail == "\"" + tail;
      assert ("\"" + tail)[1..] == tail;
    } else {
      var e := Escape(v[1..]) + "\"" + tail;
      ParseEscaped(v[1..], tail);
      if v[0] == '"' {
        EscapedStep("\"\"", e, Escape(v[1..]), tail);
        assert Escape(v) + "\"" + tail == "\"\"" + e;
        assert ("\"\"" + e)[2..] == e;
        assert "\"" + v[1..] == v;
      } else {
        EscapedStep([v[0]], e, Escape(v[1..]), tail);
        assert Escape(v) + "\"" + tail == [v[0]] + e;
        assert ([v[0]] + e)[1..] == e;
        assert [v[0]] + v[1..] == v;
      }
    }
  }

  lemma EscapedStep(head: string, e: string, rest: string, tail: string)
    requires e == rest + "\"" + tail
    ensures (head + rest) + "\"" + tail == head + e
  {
  }

  /** A single quoted field reads back as its value. */
  lemma ParseOneField(v: string)
    ensures ParseRecord(Quote(v)) == Some([v])
  {
    ParseEscaped(v, "");
    assert Quote(v)[1..] == Escape(v) + "\"" + "";
  }

  /** A quoted field, a comma and a readable line read back as the value followed by the line's fields. */
  lemma ParseFieldThenLine(v: string, line: string, vs: seq<string>)
    requires ParseRecord(line) == Some(vs)
    ensures ParseRecord(Quote(v) + "," + line) == Some([v] + vs)
  {
    var tail := "," + line;
    ParseEscaped(v, tail);
    assert (Quote(v) + "," + line)[1..] == Escape(v) + "\"" + tail;
    assert tail[1..] == line;
  }

  /** Joining quoted fields with commas and reading the line back gives the fields. */
  lemma {:induction false} ParseJoinedFields(vs: seq<string>)
    requires |vs| >= 1
    ensures ParseRecord(Join(QuoteAll(vs), ",")) == Some(vs)
    decreases |vs|
  {
    var q := QuoteAll(vs);
    assert q[0] == Quote(vs[0]);
    if |vs| == 1 {
      assert Join(q, ",") == Quote(vs[0]);
      ParseOneField(vs[0]);
      assert vs == [vs[0]];
    } else {
      assert q[1..] == QuoteAll(vs[1..]);
      assert Join(q, ",") == Quote(vs[0]) + "," + Join(q[1..], ",");
      ParseJoinedFields(vs[1..]);
      ParseFieldThenLine(vs[0], Join(q[1..], ","), vs[1..]);
      assert [vs[0]] + vs[1..] == vs;
    }
  }

  /** Every data line reads back as exactly the 14 values of its order. */
  lemma RowLineRoundTrip(o: Order)
    ensures ParseRecord(RowLine(o)) == Some(RowFields(o))
    ensures |RowFields(o)| == ColumnCount
  {
    ParseJoinedFields(RowFields(o));
  }

  /** A missing field, or a reference without the named field, is written as an empty quoted field. */
  lemma MissingFieldsBlank(o: Order)
    ensures o.mealDate.None? ==> RowFields(o)[1] == ""
    ensures o.mealType.None? ==> RowFields(o)[2] == ""
    ensures o.userId.None? ==> RowFields(o)[3] == "" && RowFields(o)[4] == "" && RowFields(o)[5] == ""
    ensures o.userId.Some? && o.userId.value.name.None? ==> RowFields(o)[3] == ""
    ensures o.userId.Some? && o.userId.value.phone.None? ==> RowFields(o)[4] == ""
    ensures o.userId.Some? && o.userId.value.email.None? ==> RowFields(o)[5] == ""
    ensures o.buildingId.None? || o.buildingId.value.name.None? ==> RowFields(o)[6] == ""
    ensures o.flatId.None? || o.flatId.value.name.None? ==> RowFields(o)[7] == ""
    ensures o.quantity.None? ==> RowFields(o)[8] == ""
    ensures o.unitPrice.None? ==> RowFields(o)[9] == ""
    ensures o.totalPrice.None? ==> RowFields(o)[10] == ""
    ensures o.status.None? ==> RowFields(o)[11] == ""
    ensures o.isPaid.None? ==> RowFields(o)[12] == ""
    ensures o.createdAt.None? ==> RowFields(o)[13] == ""
  {
  }

  /** `??` keeps 0 and false, which `||` would have blanked. */
  lemma ZeroAndFalseKept(o: Order)
    ensures o.quantity == Some(0) ==> RowFields(o)[8] == "0"
    ensures o.isPaid == Some(false) ==> RowFields(o)[12] == "false"
    ensures o.totalPrice.Some? ==> RowFields(o)[10] != ""
  {
  }

  /** The document does not end with a newline: its last character closes the last order's last field. */
  lemma {:induction false} NoTrailingNewline(orders: seq<Order>)
    requires orders != []
    ensures var csv := Join(CsvLines(orders), "\n"); |csv| > 0 && csv[|csv| - 1] == '"'
  {
    var lines := CsvLines(orders);
    var last := lines[|lines| - 1];
    var o := orders[|orders| - 1];
    CsvLinesInOrder(orders);
    assert last == RowLine(o);
    var q := QuoteAll(RowFields(o));
    QuoteAllLast(RowFields(o));
    JoinEndsWithLast(q, ",");
    JoinEndsWithLast(lines, "\n");
  }

  lemma {:induction false} QuoteAllLast(vs: seq<string>)
    requires vs != []
    ensures QuoteAll(vs)[|vs| - 1] == Quote(vs[|vs| - 1])
  {
    if |vs| > 1 {
      QuoteAllLast(vs[1..]);
    }
  }
}
