/** A database table as the services see it through the ORM: rows in insertion
    order, each with an autoincrement primary key and a map of column values.
    `JSON.stringify` of a row is its columns plus `id`. */
module Store {
  import opened Json

  datatype Row = Row(id: nat, fields: map<string, Json>)

  type Rows = seq<Row>

  /** The table invariant: distinct keys, all below the next key to hand out. */
  predicate KeysBelow(rows: Rows, nextId: nat)
  {
    && (forall i, j :: 0 <= i < j < |rows| ==> rows[i].id != rows[j].id)
    && (forall i :: 0 <= i < |rows| ==> 1 <= rows[i].id < nextId)
  }

  /** The value of a row as the service hands it on. */
  function RowJson(r: Row): (v: Json)
    ensures v.JObj? && Member(v, "id") == Some(JNum(r.id as real))
    ensures forall k :: k != "id" ==> Member(v, k) == if k in r.fields then Some(r.fields[k]) else None
  {
    JObj(r.fields["id" := JNum(r.id as real)])
  }

  function RowsJson(rows: Rows): (v: Json)
    ensures v.JArr? && |v.items| == |rows|
    ensures forall i :: 0 <= i < |rows| ==> v.items[i] == RowJson(rows[i])
  {
    JArr(seq(|rows|, i requires 0 <= i < |rows| => RowJson(rows[i])))
  }

  /** A found instance, or `null`. */
  function FoundJson(r: Option<Row>): (v: Json)
    ensures r.None? <==> v == JNull
  {
    match r
    case None => JNull
    case Some(row) => RowJson(row)
  }

  // ---------------------------------------------------------------------------
  // Primary keys arrive as route-parameter text.

  function DigitValue(c: char): (d: nat)
    requires IsDigit(c)
    ensures d < 10 && DigitChar(d) == c
  {
    (c as int - '0' as int) as nat
  }

  /** The integer PostgreSQL reads from a decimal text. */
  function ParseNat(s: string): nat
    requires NumericId(s)
    decreases |s|
  {
    if |s| == 1 then DigitValue(s[0])
    else ParseNat(s[..|s| - 1]) * 10 + DigitValue(s[|s| - 1])
  }

  /** Reading back the text of a number gives the number. */
  lemma {:induction false} ParseNatText(n: nat)
    ensures ParseNat(NatText(n)) == n
    decreases n
  {
    if n >= 10 {
      var s := NatText(n);
      assert s[..|s| - 1] == NatText(n / 10);
      ParseNatText(n / 10);
    }
  }

  /** Two texts name the same key without being equal: the key written with a
      leading zero. */
  lemma LeadingZeroNamesSameKey()
    ensures NumericId("05") && NumericId("5")
    ensures ParseNat("05") == ParseNat("5") && "05" != "5"
  {
    assert "05"[..1] == "0";
  }

  /** PostgreSQL's SQLSTATE for a text that is not a valid integer. */
  const InvalidTextRepresentation: string := "22P02"

  /** PostgreSQL's SQLSTATE for a number outside the range of its column type. */
  const NumericValueOutOfRange: string := "22003"

  /** The largest value of PostgreSQL's `integer` (int4), the type of every id
      and foreign-key column here. */
  const MaxInt4: nat := 2147483647

  /** A text parameter that PostgreSQL reads as a value of an `integer` column. */
  predicate IsKey(id: string)
  {
    NumericId(id) && ParseNat(id) <= MaxInt4
  }

  /** The key a text parameter selects, or the database error: 22P02 for
      non-numeric text, 22003 for a number above the int4 range. */
  function Pk(id: string): (r: Result<nat>)
    ensures r.Ok? <==> IsKey(id)
    ensures r.Ok? ==> r.value == ParseNat(id) && r.value <= MaxInt4
    ensures !NumericId(id) ==> r == Err(Database(Some(InvalidTextRepresentation)))
    ensures NumericId(id) && ParseNat(id) > MaxInt4 ==> r == Err(Database(Some(NumericValueOutOfRange)))
  {
    if !NumericId(id) then Err(Database(Some(InvalidTextRepresentation)))
    else if ParseNat(id) > MaxInt4 then Err(Database(Some(NumericValueOutOfRange)))
    else Ok(ParseNat(id))
  }

  /** The first text above the int4 range is refused rather than looked up,
      and the last one inside it is a key. */
  lemma Int4Boundary()
    ensures Pk("2147483648") == Err(Database(Some(NumericValueOutOfRange)))
    ensures Pk("2147483647") == Ok(MaxInt4)
  {
    assert ParseNat("2") == 2;
    ParseNatAppend("2", '1');
    assert "2" + ['1'] == "21";
    ParseNatAppend("21", '4');
    assert "21" + ['4'] == "214";
    ParseNatAppend("214", '7');
    assert "214" + ['7'] == "2147";
    ParseNatAppend("2147", '4');
    assert "2147" + ['4'] == "21474";
    ParseNatAppend("21474", '8');
    assert "21474" + ['8'] == "214748";
    ParseNatAppend("214748", '3');
    assert "214748" + ['3'] == "2147483";
    ParseNatAppend("2147483", '6');
    assert "2147483" + ['6'] == "21474836";
    ParseNatAppend("21474836", '4');
    assert "21474836" + ['4'] == "214748364";
    ParseNatAppend("214748364", '8');
    assert "214748364" + ['8'] == "2147483648";
    ParseNatAppend("214748364", '7');
    assert "214748364" + ['7'] == "2147483647";
  }

  /** One more digit: the value shifts one place and adds the digit. */
  lemma ParseNatAppend(s: string, c: char)
    requires NumericId(s) && IsDigit(c)
    ensures NumericId(s + [c]) && ParseNat(s + [c]) == ParseNat(s) * 10 + DigitValue(c)
  {
    assert (s + [c])[..|s|] == s;
  }

  // ---------------------------------------------------------------------------
  // Lookups and updates.

  /** The position of the row with key `id`. */
  function IndexOf(rows: Rows, id: nat): (r: Option<nat>)
    ensures r.Some? ==> r.value < |rows| && rows[r.value].id == id
    ensures r.None? <==> forall i :: 0 <= i < |rows| ==> rows[i].id != id
    decreases |rows|
  {
    if |rows| == 0 then None
    else if rows[|rows| - 1].id == id then Some(|rows| - 1)
    else IndexOf(rows[..|rows| - 1], id)
  }

  /** `findByPk`: the row with that key, if any (keys are unique, so at most one). */
  function FindByPk(rows: Rows, id: nat): (r: Option<Row>)
    ensures r.Some? ==> r.value in rows && r.value.id == id
    ensures r.None? <==> forall i :: 0 <= i < |rows| ==> rows[i].id != id
  {
    match IndexOf(rows, id)
    case None => None
    case Some(i) => Some(rows[i])
  }

  /** `Model.findByPk(id)` on a route parameter: the instance, `null`, or the
      database's rejection of the text. */
  function LookupPk(rows: Rows, id: string): (r: Result<Json>)
    ensures r.Err? <==> !IsKey(id)
    ensures r.Err? ==> r == Err(Pk(id).fault)
    ensures r.Ok? ==> r.value == FoundJson(FindByPk(rows, ParseNat(id)))
  {
    match Pk(id)
    case Err(f) => Err(f)
    case Ok(key) => Ok(FoundJson(FindByPk(rows, key)))
  }

  lemma FindUnique(rows: Rows, nextId: nat, i: nat)
    requires KeysBelow(rows, nextId) && i < |rows|
    ensures IndexOf(rows, rows[i].id) == Some(i)
    ensures FindByPk(rows, rows[i].id) == Some(rows[i])
  {
  }

  /** `create(payload)`: a new row with the next key, appended. */
  function Insert(rows: Rows, nextId: nat, payload: map<string, Json>): (r: Rows)
    ensures |r| == |rows| + 1 && r[..|rows|] == rows
    ensures r[|rows|] == Row(nextId, payload)
  {
    rows + [Row(nextId, payload)]
  }

  /** `instance.update(payload)`: the given columns take the given values. */
  function Patch(rows: Rows, i: nat, payload: map<string, Json>): (r: Rows)
    requires i < |rows|
    ensures |r| == |rows| && r[i].id == rows[i].id
    ensures forall j :: 0 <= j < |rows| && j != i ==> r[j] == rows[j]
    ensures forall k :: k in r[i].fields <==> k in rows[i].fields || k in payload
    ensures forall k :: k in payload ==> r[i].fields[k] == payload[k]
    ensures forall k :: k in rows[i].fields && k !in payload ==> r[i].fields[k] == rows[i].fields[k]
  {
    rows[i := Row(rows[i].id, rows[i].fields + payload)]
  }

  /** `instance.destroy()`: the row is gone, the others keep their order. */
  function Destroy(rows: Rows, i: nat): (r: Rows)
    requires i < |rows|
    ensures |r| == |rows| - 1
    ensures forall j :: 0 <= j < i ==> r[j] == rows[j]
    ensures forall j :: i < j < |rows| ==> r[j - 1] == rows[j]
  {
    rows[..i] + rows[i + 1..]
  }

  lemma InsertKeepsKeysBelow(rows: Rows, nextId: nat, payload: map<string, Json>)
    requires KeysBelow(rows, nextId) && nextId >= 1
    ensures KeysBelow(Insert(rows, nextId, payload), nextId + 1)
  {
  }

  lemma PatchKeepsKeysBelow(rows: Rows, nextId: nat, i: nat, payload: map<string, Json>)
    requires KeysBelow(rows, nextId) && i < |rows|
    ensures KeysBelow(Patch(rows, i, payload), nextId)
  {
  }

  lemma {:induction false} DestroyKeepsKeysBelow(rows: Rows, nextId: nat, i: nat)
    requires KeysBelow(rows, nextId) && i < |rows|
    ensures KeysBelow(Destroy(rows, i), nextId)
    ensures FindByPk(Destroy(rows, i), rows[i].id).None?
  {
    var r := Destroy(rows, i);
    forall a, b | 0 <= a < b < |r|
      ensures r[a].id != r[b].id
    {
      var a' := if a < i then a else a + 1;
      var b' := if b < i then b else b + 1;
      assert r[a] == rows[a'] && r[b] == rows[b'];
    }
    forall j | 0 <= j < |r|
      ensures r[j].id != rows[i].id
    {
      var j' := if j < i then j else j + 1;
      assert r[j] == rows[j'];
    }
  }

  /** `findAll({ where: { column: value } })`, in table order. */
  function Where(rows: Rows, column: string, value: Json): (r: Rows)
    ensures IsSubsequence(r, rows)
    ensures forall x :: x in r <==> x in rows && column in x.fields && x.fields[column] == value
    decreases |rows|
  {
    if |rows| == 0 then []
    else if column in rows[0].fields && rows[0].fields[column] == value then [rows[0]] + Where(rows[1..], column, value)
    else Where(rows[1..], column, value)
  }

  /** `findOne({ where: { column: value } })`: the first such row. */
  function FindOne(rows: Rows, column: string, value: Json): (r: Option<Row>)
    ensures r.None? <==> forall x :: x in rows ==> !(column in x.fields && x.fields[column] == value)
    ensures r.Some? ==> r.value in rows && column in r.value.fields && r.value.fields[column] == value
  {
    var found := Where(rows, column, value);
    if |found| == 0 then None
    else
      assert found[0] in found;
      Some(found[0])
  }
}
