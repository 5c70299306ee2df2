/** The `bis_credit_table` endpoints: the lenient projection of BIS.py and main.py, which
    skips a record that lacks one of its keys and goes on, and the strict one of BISapps.py,
    where a missing key or a value that is not a dictionary ends the request. */
module Table {
  import opened Common
  import opened BisXml

  /** `{"Date": row["Date"], "Country": row["Country"], "Value": row["Value"]}`, or
      `None` where `row[...]` raises `KeyError`. */
  function ProjectRow(row: Dict): (r: Option<Dict>)
    ensures r.Some? <==> "Date" in row && "Country" in row && "Value" in row
    ensures r.Some? ==> r.value.Keys == {"Date", "Country", "Value"}
    ensures r.Some? ==> forall k :: k in r.value ==> r.value[k] == row[k]
  {
    if "Date" in row && "Country" in row && "Value" in row then
      Some(map["Date" := row["Date"], "Country" := row["Country"], "Value" := row["Value"]])
    else None
  }

  /** The table of BIS.py and main.py: the projection of every record that has the three
      keys, in order. */
  function Projected(data: seq<Dict>): seq<Dict>
  {
    if data == [] then []
    else
      var init := Projected(data[..|data| - 1]);
      match ProjectRow(data[|data| - 1])
      case None => init
      case Some(row) => init + [row]
  }

  /** The loop of `bis_credit_table`: append the projected row, or skip the record on
      `KeyError` and continue. */
  method ProjectTable(data: seq<Dict>) returns (table: seq<Dict>)
    ensures table == Projected(data)
  {
    table := [];
    var i := 0;
    while i < |data|
      invariant 0 <= i <= |data|
      invariant table == Projected(data[..i])
    {
      assert data[..i + 1][..i] == data[..i];
      match ProjectRow(data[i]) {
        case None =>
        case Some(row) => table := table + [row];
      }
      i := i + 1;
    }
    assert data[..i] == data;
  }

  /** Projecting two stretches of records one after the other is projecting them
      together: a skipped record does not stop the rows after it. */
  lemma {:induction false} ProjectedAppend(a: seq<Dict>, b: seq<Dict>)
    ensures Projected(a + b) == Projected(a) + Projected(b)
    decreases |b|
  {
    if b == [] {
      assert a + b == a;
    } else {
      var init := b[..|b| - 1];
      assert (a + b)[..|a + b| - 1] == a + init;
      ProjectedAppend(a, init);
    }
  }

  /** A record is skipped exactly when it lacks a key; each record contributes its own row. */
  lemma ProjectedOne(row: Dict)
    ensures Projected([row]) == (if ProjectRow(row).Some? then [ProjectRow(row).value] else [])
  {
    assert [row][..0] == [];
  }

  /** Every row of the table is the projection of some record, and every complete
      record has its row in the table. */
  lemma ProjectedMembers(data: seq<Dict>)
    ensures forall t :: t in Projected(data) <==> exists k :: 0 <= k < |data| && ProjectRow(data[k]) == Some(t)
    ensures |Projected(data)| <= |data|
  {
    ProjectedFrom(data);
    ProjectedHas(data);
  }

  /** Every row of the table is the projection of some record. */
  lemma {:induction false} ProjectedFrom(data: seq<Dict>)
    ensures forall t :: t in Projected(data) ==> exists k :: 0 <= k < |data| && ProjectRow(data[k]) == Some(t)
    ensures |Projected(data)| <= |data|
  {
    if data != [] {
      var n := |data| - 1;
      var init := data[..n];
      ProjectedFrom(init);
      forall t | t in Projected(data) ensures exists k :: 0 <= k < |data| && ProjectRow(data[k]) == Some(t) {
        if t in Projected(init) {
          var k :| 0 <= k < |init| && ProjectRow(init[k]) == Some(t);
          assert data[k] == init[k];
        } else {
          assert ProjectRow(data[n]) == Some(t);
        }
      }
    }
  }

  /** Every complete record has its row in the table. */
  lemma {:induction false} ProjectedHas(data: seq<Dict>)
    ensures forall k :: 0 <= k < |data| && ProjectRow(data[k]).Some? ==> ProjectRow(data[k]).value in Projected(data)
  {
    if data != [] {
      var n := |data| - 1;
      var init := data[..n];
      ProjectedHas(init);
      assert forall k :: 0 <= k < n ==> init[k] == data[k];
    }
  }

  /** When every record has the three keys, the table has one row per record, copying
      its fields. */
  lemma {:induction false} ProjectedComplete(data: seq<Dict>)
    requires forall k :: 0 <= k < |data| ==> "Date" in data[k] && "Country" in data[k] && "Value" in data[k]
    ensures |Projected(data)| == |data|
    ensures forall k :: 0 <= k < |data| ==> Projected(data)[k] == ProjectRow(data[k]).value
  {
    if data != [] {
      var n := |data| - 1;
      var init := data[..n];
      assert forall k :: 0 <= k < n ==> init[k] == data[k];
      ProjectedComplete(init);
      assert ProjectRow(data[n]).Some?;
      var table := Projected(data);
      assert table == Projected(init) + [ProjectRow(data[n]).value];
      forall k | 0 <= k < |data| ensures table[k] == ProjectRow(data[k]).value {
        if k < n {
          assert table[k] == Projected(init)[k];
        }
      }
    }
  }

  /** The table of a successful country parse is the parse itself: a parsed record has
      exactly the three keys, so none is skipped and each row equals its record. */
  lemma ParsedTable(doc: Document, toFloat: string -> Option<real>)
    requires CountryRecords(doc, toFloat).Ok?
    ensures Projected(CountryRecords(doc, toFloat).value) == CountryRecords(doc, toFloat).value
  {
    var data := CountryRecords(doc, toFloat).value;
    forall k | 0 <= k < |data| ensures data[k].Keys == {"Date", "Value", "Country"} {
      CountryRecordsFields(doc, toFloat, k);
    }
    ProjectedComplete(data);
    forall k | 0 <= k < |data| ensures Projected(data)[k] == data[k] {
      assert ProjectRow(data[k]).value.Keys == data[k].Keys;
    }
  }

  /** The row of BISapps.py's table: `{"Date": row["time_period"], "Value": row["value"]}`,
      where indexing something that is not a dictionary raises `TypeError` and a missing
      key `KeyError`. */
  function StrictRow(item: Json): (r: Result<Dict, Failure>)
    ensures !item.JObj? ==> r == Err(NotARecord)
    ensures item.JObj? && "time_period" !in item.fields ==> r == Err(MissingKey("time_period"))
    ensures item.JObj? && "time_period" in item.fields && "value" !in item.fields ==> r == Err(MissingKey("value"))
    ensures r.Ok? <==> item.JObj? && "time_period" in item.fields && "value" in item.fields
    ensures r.Ok? ==> r.value.Keys == {"Date", "Value"}
    ensures r.Ok? ==> r.value["Date"] == item.fields["time_period"] && r.value["Value"] == item.fields["value"]
  {
    match item
    case JObj(fields) =>
      if "time_period" !in fields then Err(MissingKey("time_period"))
      else if "value" !in fields then Err(MissingKey("value"))
      else Ok(map["Date" := fields["time_period"], "Value" := fields["value"]])
    case _ => Err(NotARecord)
  }

  /** `for row in data` over what the fetch returned: a list yields its items, a
      dictionary its keys and a string its characters (which `row["time_period"]` cannot
      index), and anything else is not iterable. */
  function StrictTableOf(data: Json): (r: Result<seq<Dict>, Failure>)
    ensures data.JList? ==> r == MapOrFail(data.items, StrictRow)
    ensures data.JObj? ==> r == (if data.fields == map[] then Ok([]) else Err(NotARecord))
    ensures data.JStr? ==> r == (if data.s == "" then Ok([]) else Err(NotARecord))
    ensures data.JNull? || data.JBool? || data.JNum? ==> r == Err(NotARecord)
    ensures r.Err? ==> r.error == NotARecord || r.error.MissingKey?
  {
    match data
    case JList(items) =>
      if MapOrFail(items, StrictRow).Err? then MapOrFailErrorFrom(items, StrictRow); MapOrFail(items, StrictRow)
      else MapOrFail(items, StrictRow)
    case JObj(fields) => if fields == map[] then Ok([]) else Err(NotARecord)
    case JStr(s) => if s == "" then Ok([]) else Err(NotARecord)
    case _ => Err(NotARecord)
  }

  /** The loop of BISapps.py's `bis_credit_table` over a list: one row per item, until
      the first item that is not a record with both keys. */
  method StrictRows(items: seq<Json>) returns (r: Result<seq<Dict>, Failure>)
    ensures r == MapOrFail(items, StrictRow)
  {
    var table: seq<Dict> := [];
    var i := 0;
    while i < |items|
      invariant 0 <= i <= |items|
      invariant MapOrFail(items[..i], StrictRow) == Ok(table)
    {
      var row := StrictRow(items[i]);
      MapOrFailSnoc(items[..i], items[i], StrictRow, table);
      assert items[..i] + [items[i]] == items[..i + 1];
      if row.Err? {
        MapOrFailKeepsError(items[..i + 1], items, StrictRow);
        return Err(row.error);
      }
      table := table + [row.value];
      i := i + 1;
    }
    assert items[..i] == items;
    r := Ok(table);
  }

  /** The loop of BISapps.py's `bis_credit_table`. */
  method StrictTable(data: Json) returns (r: Result<seq<Dict>, Failure>)
    ensures r == StrictTableOf(data)
  {
    if !data.JList? {
      return StrictTableOf(data);
    }
    r := StrictRows(data.items);
  }

  /** BISapps.py's table of its own parse: one row per record, in order, none dropped,
      `Date` from `time_period` and `Value` from `value`. */
  lemma PeriodTable(doc: Document, toFloat: string -> Option<real>)
    requires MapOrFail(Pairs(doc), PeriodBuilder(toFloat)).Ok?
    ensures var records := MapOrFail(Pairs(doc), PeriodBuilder(toFloat)).value;
      var table := StrictTableOf(RecordList(records));
      && table.Ok? && |table.value| == |records|
      && forall k :: 0 <= k < |records| ==>
           && "time_period" in records[k] && "value" in records[k]
           && table.value[k] == map["Date" := records[k]["time_period"], "Value" := records[k]["value"]]
  {
    var ps := Pairs(doc);
    var records := MapOrFail(ps, PeriodBuilder(toFloat)).value;
    MapOrFailOk(ps, PeriodBuilder(toFloat));
    var items := RecordList(records).items;
    forall k | 0 <= k < |items| ensures StrictRow(items[k]).Ok? {
      assert PeriodRecord(ps[k].1, toFloat) == Ok(records[k]);
    }
    MapOrFailFails(items, StrictRow);
    MapOrFailOk(items, StrictRow);
    var table := StrictTableOf(RecordList(records)).value;
    forall k | 0 <= k < |records|
      ensures "time_period" in records[k] && "value" in records[k]
      ensures table[k] == map["Date" := records[k]["time_period"], "Value" := records[k]["value"]]
    {
      assert PeriodRecord(ps[k].1, toFloat) == Ok(records[k]);
      assert StrictRow(items[k]) == Ok(table[k]);
    }
  }

  /** The strict table fails exactly when some item is not a record with both keys, and
      then with the error of the first such item. */
  lemma StrictTableFails(items: seq<Json>, k: nat)
    requires k < |items| && StrictRow(items[k]).Err?
    requires forall i :: 0 <= i < k ==> StrictRow(items[i]).Ok?
    ensures StrictTableOf(JList(items)) == Err(StrictRow(items[k]).error)
  {
    MapOrFailFirstError(items, StrictRow, k);
  }
}
