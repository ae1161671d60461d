/**
 * Orders and withdrawals as the service stores, reads and prints them: the
 * `Order` and `OrderBalance` records, their decoding from a database row,
 * their decoding from JSON (the accrual service's shape for orders, the
 * request shape for withdrawals) and their encoding to JSON with the order
 * number as a base-10 string.
 */
module Orders {
  import opened Wrappers
  import opened Io
  import opened Decimal
  import opened Rows

  // ---------------------------------------------------------------- Order

  /** The fields of an `Order`; an absent accrual or upload time is `None` (a nil pointer). */
  datatype OrderData = OrderData(number: int64, status: string, accrual: Option<Float64>, uploadedAt: Option<Time>)

  /** A freshly allocated `Order`. */
  const ZeroOrder := OrderData(0, "", None, None)

  /**
   * The value of column `name` has the Go type its field's type assertion
   * expects (any other value makes `ScanRow` panic).  Only the accrual
   * column may be null.
   */
  predicate OrderCellFits(name: string, c: Cell) {
    && (name == "number" ==> c.IntCell?)
    && (name == "status" ==> c.TextCell?)
    && (name == "accrual" ==> c.FloatCell? || c.NullCell?)
    && (name == "uploadedat" ==> c.TimeCell?)
  }

  predicate OrderCellsFit(fields: seq<string>, cells: seq<Cell>)
    requires |cells| <= |fields|
  {
    forall j :: 0 <= j < |cells| ==> OrderCellFits(Lower(fields[j]), cells[j])
  }

  /**
   * One step of `Order.ScanRow`: the field the column names, ignoring case,
   * takes the column's value; a null accrual and any other column change
   * nothing.  Values of the wrong type also change nothing here; `ScanRow`'s
   * precondition keeps them out.
   */
  function AssignOrder(o: OrderData, name: string, c: Cell): OrderData {
    var key := Lower(name);
    if key == "number" then (if c.IntCell? then o.(number := c.i) else o)
    else if key == "status" then (if c.TextCell? then o.(status := c.s) else o)
    else if key == "accrual" then (if c.FloatCell? then o.(accrual := Some(c.f)) else o)
    else if key == "uploadedat" then (if c.TimeCell? then o.(uploadedAt := Some(c.t)) else o)
    else o
  }

  /** What one column does to each field. */
  lemma AssignOrderFields(o: OrderData, name: string, c: Cell)
    ensures AssignOrder(o, name, c).number == if Lower(name) == "number" && c.IntCell? then c.i else o.number
    ensures AssignOrder(o, name, c).status == if Lower(name) == "status" && c.TextCell? then c.s else o.status
    ensures AssignOrder(o, name, c).accrual == if Lower(name) == "accrual" && c.FloatCell? then Some(c.f) else o.accrual
    ensures AssignOrder(o, name, c).uploadedAt == if Lower(name) == "uploadedat" && c.TimeCell? then Some(c.t) else o.uploadedAt
  {
  }

  /**
   * Scanning a row sets each field from the last column of its name that
   * holds a value, and leaves a field unchanged when no such column exists:
   * other columns, and null accrual columns, are ignored.
   */
  lemma ScanOrderByLastSet(o: OrderData, fields: seq<string>, cells: seq<Cell>)
    requires |cells| <= |fields| && OrderCellsFit(fields, cells)
    ensures var r, n := Scan(o, fields, cells, AssignOrder), LastSet(fields, cells, "number");
      (n.None? ==> r.number == o.number) && (n.Some? ==> cells[n.value] == IntCell(r.number))
    ensures var r, s := Scan(o, fields, cells, AssignOrder), LastSet(fields, cells, "status");
      (s.None? ==> r.status == o.status) && (s.Some? ==> cells[s.value] == TextCell(r.status))
    ensures var r, a := Scan(o, fields, cells, AssignOrder), LastSet(fields, cells, "accrual");
      (a.None? ==> r.accrual == o.accrual) && (a.Some? ==> r.accrual.Some? && cells[a.value] == FloatCell(r.accrual.value))
    ensures var r, u := Scan(o, fields, cells, AssignOrder), LastSet(fields, cells, "uploadedat");
      (u.None? ==> r.uploadedAt == o.uploadedAt) && (u.Some? ==> r.uploadedAt.Some? && cells[u.value] == TimeCell(r.uploadedAt.value))
  {
    forall j, x | 0 <= j < |cells| {
      AssignOrderFields(x, fields[j], cells[j]);
    }
    ScanField(o, fields, cells, AssignOrder, "number", (x: OrderData) => x.number, (c: Cell) => if c.IntCell? then c.i else 0);
    ScanField(o, fields, cells, AssignOrder, "status", (x: OrderData) => x.status, (c: Cell) => if c.TextCell? then c.s else "");
    ScanField(o, fields, cells, AssignOrder, "accrual", (x: OrderData) => x.accrual, (c: Cell) => if c.FloatCell? then Some(c.f) else None);
    ScanField(o, fields, cells, AssignOrder, "uploadedat", (x: OrderData) => x.uploadedAt, (c: Cell) => if c.TimeCell? then Some(c.t) else None);
  }

  /** The status the service stores for a status reported by the accrual service. */
  function NormalizeStatus(status: string): (r: string)
    ensures r != "REGISTERED"
    ensures status != "REGISTERED" ==> r == status
    ensures status == "REGISTERED" ==> r == "NEW"
  {
    if status == "REGISTERED" then "NEW" else status
  }

  /** Normalising twice is normalising once. */
  lemma NormalizeStatusIdempotent(status: string)
    ensures NormalizeStatus(NormalizeStatus(status)) == NormalizeStatus(status)
  {
  }

  /** The order document of the accrual service: the number as text, the status, and an optional accrual. */
  datatype ServiceOrder = ServiceOrder(order: string, status: string, accrual: Option<Float64>)

  /** The order document the service prints: `Order`'s fields with the number as base-10 text. */
  datatype OrderJSON = OrderJSON(number: string, status: string, accrual: Option<Float64>, uploadedAt: Option<Time>)

  /**
   * `Order.MarshalJSON`: every field is printed as it is, and the number as
   * base-10 text that parses back to the same number.
   */
  function MarshalOrder(o: OrderData): (j: OrderJSON)
    ensures ParseInt(j.number) == Parsed(o.number, None)
    ensures IsDecimal(j.number) && DecimalValue(j.number) == o.number as int
    ensures j.status == o.status && j.accrual == o.accrual && j.uploadedAt == o.uploadedAt
  {
    FormatParseRoundTrip(o.number);
    OrderJSON(FormatInt(o.number), o.status, o.accrual, o.uploadedAt)
  }

  class Order {
    var number: int64
    var status: string
    var accrual: Option<Float64>
    var uploadedAt: Option<Time>

    function Data(): OrderData
      reads this
    {
      OrderData(number, status, accrual, uploadedAt)
    }

    constructor()
      ensures Data() == ZeroOrder
    {
      number, status, accrual, uploadedAt := 0, "", None, None;
    }

    /**
     * `Order.ScanRow`: a row whose values cannot be read is reported and
     * changes nothing; otherwise the columns are applied in order, as
     * `ScanOrderByLastSet` describes.
     */
    method ScanRow(row: Row) returns (err: Option<RowError>)
      requires row.values.Success? ==>
        |row.values.value| <= |row.fields| && OrderCellsFit(row.fields, row.values.value)
      modifies this
      ensures row.values.Failure? ==> err == Some(row.values.error) && Data() == old(Data())
      ensures row.values.Success? ==>
        err == None && Data() == Scan(old(Data()), row.fields, row.values.value, AssignOrder)
    {
      if row.values.Failure? {
        return Some(row.values.error);
      }
      var values := row.values.value;
      var i := 0;
      while i < |values|
        invariant 0 <= i <= |values|
        invariant Data() == Scan(old(Data()), row.fields, values[..i], AssignOrder)
      {
        assert values[..i + 1][..i] == values[..i];
        assert OrderCellFits(Lower(row.fields[i]), values[i]);
        var key := Lower(row.fields[i]);
        if key == "number" {
          number := values[i].i;
        } else if key == "status" {
          status := values[i].s;
        } else if key == "accrual" {
          if !values[i].NullCell? {
            accrual := Some(values[i].f);
          }
        } else if key == "uploadedat" {
          uploadedAt := Some(values[i].t);
        }
        i := i + 1;
      }
      assert values[..i] == values;
      err := None;
    }

    /**
     * `Order.UnmarshalJSON` on a document of the accrual service: the number
     * is parsed as base-10 `int64` (a parse error is returned, with the value
     * `ParseInt` leaves), the status is normalised, the accrual is copied,
     * and the upload time is kept.
     */
    method UnmarshalJSON(doc: ServiceOrder) returns (err: Option<NumError>)
      requires doc.order != ""
      modifies this
      ensures number == ParseInt(doc.order).value && err == ParseInt(doc.order).err
      ensures err.None? <==> IsDecimal(doc.order) && MinInt64 <= DecimalValue(doc.order) <= MaxInt64
      ensures err.None? ==> number as int == DecimalValue(doc.order)
      ensures status == NormalizeStatus(doc.status) && accrual == doc.accrual
      ensures uploadedAt == old(uploadedAt)
    {
      var parsed := ParseInt(doc.order);
      number, err := parsed.value, parsed.err;
      status := doc.status;
      if doc.status == "REGISTERED" {
        status := "NEW";
      }
      accrual := doc.accrual;
    }
  }

  // -------------------------------------------------------- OrderBalance

  /** The fields of an `OrderBalance` (a withdrawal): order number, sum, and optional processing time. */
  datatype BalanceData = BalanceData(order: int64, sum: Float64, processedAt: Option<Time>)

  /** A freshly allocated `OrderBalance`. */
  const ZeroBalance := BalanceData(0, 0.0, None)

  /** The value of column `name` has the Go type its field's type assertion expects; no column may be null. */
  predicate BalanceCellFits(name: string, c: Cell) {
    && (name == "order" ==> c.IntCell?)
    && (name == "sum" ==> c.FloatCell?)
    && (name == "processedat" ==> c.TimeCell?)
  }

  predicate BalanceCellsFit(fields: seq<string>, cells: seq<Cell>)
    requires |cells| <= |fields|
  {
    forall j :: 0 <= j < |cells| ==> BalanceCellFits(Lower(fields[j]), cells[j])
  }

  /** One step of `OrderBalance.ScanRow`; values of the wrong type change nothing here and are kept out by `ScanRow`. */
  function AssignBalance(b: BalanceData, name: string, c: Cell): BalanceData {
    var key := Lower(name);
    if key == "order" then (if c.IntCell? then b.(order := c.i) else b)
    else if key == "sum" then (if c.FloatCell? then b.(sum := c.f) else b)
    else if key == "processedat" then (if c.TimeCell? then b.(processedAt := Some(c.t)) else b)
    else b
  }

  /** What one column does to each field. */
  lemma AssignBalanceFields(b: BalanceData, name: string, c: Cell)
    ensures AssignBalance(b, name, c).order == if Lower(name) == "order" && c.IntCell? then c.i else b.order
    ensures AssignBalance(b, name, c).sum == if Lower(name) == "sum" && c.FloatCell? then c.f else b.sum
    ensures AssignBalance(b, name, c).processedAt == if Lower(name) == "processedat" && c.TimeCell? then Some(c.t) else b.processedAt
  {
  }

  /** Scanning a row sets each field from the last column of its name, and leaves it when there is none. */
  lemma ScanBalanceByLastSet(b: BalanceData, fields: seq<string>, cells: seq<Cell>)
    requires |cells| <= |fields| && BalanceCellsFit(fields, cells)
    ensures var r, n := Scan(b, fields, cells, AssignBalance), LastSet(fields, cells, "order");
      (n.None? ==> r.order == b.order) && (n.Some? ==> cells[n.value] == IntCell(r.order))
    ensures var r, s := Scan(b, fields, cells, AssignBalance), LastSet(fields, cells, "sum");
      (s.None? ==> r.sum == b.sum) && (s.Some? ==> cells[s.value] == FloatCell(r.sum))
    ensures var r, p := Scan(b, fields, cells, AssignBalance), LastSet(fields, cells, "processedat");
      (p.None? ==> r.processedAt == b.processedAt) && (p.Some? ==> r.processedAt.Some? && cells[p.value] == TimeCell(r.processedAt.value))
  {
    forall j, x | 0 <= j < |cells| {
      AssignBalanceFields(x, fields[j], cells[j]);
    }
    ScanField(b, fields, cells, AssignBalance, "order", (x: BalanceData) => x.order, (c: Cell) => if c.IntCell? then c.i else 0);
    ScanField(b, fields, cells, AssignBalance, "sum", (x: BalanceData) => x.sum, (c: Cell) => if c.FloatCell? then c.f else 0.0);
    ScanField(b, fields, cells, AssignBalance, "processedat", (x: BalanceData) => x.processedAt, (c: Cell) => if c.TimeCell? then Some(c.t) else None);
  }

  /**
   * A withdrawal document: the order number as text, the sum and the
   * processing time.  A key missing from the text stands here for the value
   * a fresh `OrderBalance` holds.
   */
  datatype BalanceJSON = BalanceJSON(order: string, sum: Float64, processedAt: Option<Time>)

  /** `OrderBalance.MarshalJSON`: the number as base-10 text that parses back to it, the other fields as they are. */
  function MarshalBalance(b: BalanceData): (j: BalanceJSON)
    ensures ParseInt(j.order) == Parsed(b.order, None)
    ensures IsDecimal(j.order) && DecimalValue(j.order) == b.order as int
    ensures j.sum == b.sum && j.processedAt == b.processedAt
  {
    FormatParseRoundTrip(b.order);
    BalanceJSON(FormatInt(b.order), b.sum, b.processedAt)
  }

  /** Why the fields of a withdrawal could not be decoded: malformed JSON, or an order number that is not base-10 `int64`. */
  datatype FieldsError = JsonFailed(jsonError: JsonError) | NumberFailed(numError: NumError)

  class OrderBalance {
    var order: int64
    var sum: Float64
    var processedAt: Option<Time>

    function Data(): BalanceData
      reads this
    {
      BalanceData(order, sum, processedAt)
    }

    constructor()
      ensures Data() == ZeroBalance
    {
      order, sum, processedAt := 0, 0.0, None;
    }

    /** `OrderBalance.ScanRow`: a read failure is reported and changes nothing; otherwise the columns are applied in order. */
    method ScanRow(row: Row) returns (err: Option<RowError>)
      requires row.values.Success? ==>
        |row.values.value| <= |row.fields| && BalanceCellsFit(row.fields, row.values.value)
      modifies this
      ensures row.values.Failure? ==> err == Some(row.values.error) && Data() == old(Data())
      ensures row.values.Success? ==>
        err == None && Data() == Scan(old(Data()), row.fields, row.values.value, AssignBalance)
    {
      if row.values.Failure? {
        return Some(row.values.error);
      }
      var values := row.values.value;
      var i := 0;
      while i < |values|
        invariant 0 <= i <= |values|
        invariant Data() == Scan(old(Data()), row.fields, values[..i], AssignBalance)
      {
        assert values[..i + 1][..i] == values[..i];
        assert BalanceCellFits(Lower(row.fields[i]), values[i]);
        var key := Lower(row.fields[i]);
        if key == "order" {
          order := values[i].i;
        } else if key == "sum" {
          sum := values[i].f;
        } else if key == "processedat" {
          processedAt := Some(values[i].t);
        }
        i := i + 1;
      }
      assert values[..i] == values;
      err := None;
    }

    /**
     * `OrderBalance.UnmarshalJSON`: a malformed document is reported (the
     * receiver is left as it was); otherwise the sum and processing time are
     * taken over and the order text is parsed as base-10 `int64`, its error
     * reported and its value stored either way.
     */
    method UnmarshalJSON(doc: Result<BalanceJSON, JsonError>) returns (err: Option<FieldsError>)
      modifies this
      ensures doc.Failure? ==> err == Some(JsonFailed(doc.error)) && Data() == old(Data())
      ensures doc.Success? ==> sum == doc.value.sum && processedAt == doc.value.processedAt
      ensures doc.Success? ==> order == ParseInt(doc.value.order).value
      ensures doc.Success? ==>
        (err.None? <==> IsDecimal(doc.value.order) && MinInt64 <= DecimalValue(doc.value.order) <= MaxInt64)
      ensures doc.Success? && err.Some? ==> err == Some(NumberFailed(ParseInt(doc.value.order).err.value))
      ensures err.None? ==> doc.Success? && order as int == DecimalValue(doc.value.order)
    {
      if doc.Failure? {
        return Some(JsonFailed(doc.error));
      }
      sum, processedAt := doc.value.sum, doc.value.processedAt;
      var parsed := ParseInt(doc.value.order);
      order := parsed.value;
      err := if parsed.err.Some? then Some(NumberFailed(parsed.err.value)) else None;
    }
  }

  /** A withdrawal printed by the service and read back is the same withdrawal, with no error. */
  method MarshalUnmarshalBalance(b: BalanceData) returns (back: BalanceData, err: Option<FieldsError>)
    ensures err == None && back == b
  {
    var ob := new OrderBalance();
    err := ob.UnmarshalJSON(Success(MarshalBalance(b)));
    back := ob.Data();
  }

  /** Why no withdrawal could be built from a request: the body could not be read, or its fields could not be decoded. */
  datatype BalanceError = ReadFailed(readError: IoError) | WriteFieldsFailed(fieldsError: FieldsError)

  /**
   * `NewOrderBalanceByRequestBody`: reads the body and decodes it into a
   * fresh withdrawal.  `decode` is the JSON decoder of withdrawal documents.
   */
  method NewOrderBalanceByRequestBody(body: Result<seq<byte>, IoError>,
                                      decode: seq<byte> -> Result<BalanceJSON, JsonError>)
    returns (r: Result<BalanceData, BalanceError>)
    ensures body.Failure? ==> r == Failure(ReadFailed(body.error))
    ensures body.Success? && decode(body.value).Failure? ==>
      r == Failure(WriteFieldsFailed(JsonFailed(decode(body.value).error)))
    ensures body.Success? && decode(body.value).Success? ==>
      var doc := decode(body.value).value;
      (r.Success? <==> IsDecimal(doc.order) && MinInt64 <= DecimalValue(doc.order) <= MaxInt64)
      && (r.Success? ==> r.value.order as int == DecimalValue(doc.order)
                         && r.value.sum == doc.sum && r.value.processedAt == doc.processedAt)
  {
    if body.Failure? {
      return Failure(ReadFailed(body.error));
    }
    var ob := new OrderBalance();
    var err := ob.UnmarshalJSON(decode(body.value));
    if err.Some? {
      return Failure(WriteFieldsFailed(err.value));
    }
    r := Success(ob.Data());
  }

  /** An empty body is rejected whenever the decoder rejects the empty document, as `encoding/json` does. */
  method EmptyBalanceBodyRejected(decode: seq<byte> -> Result<BalanceJSON, JsonError>)
    returns (r: Result<BalanceData, BalanceError>)
    requires decode([]).Failure?
    ensures r.Failure? && r.error.WriteFieldsFailed? && r.error.fieldsError.JsonFailed?
  {
    r := NewOrderBalanceByRequestBody(Success([]), decode);
  }
}
