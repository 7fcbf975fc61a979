/** The vehicle inventory: prioritised lookup over a file that is parsed again when its mtime changes. */
module Inventory {
  import opened Common
  import opened Text

  datatype Field = GarageNumber | VehicleId | Plate

  /** The identifier fields in the order of their priority. */
  const FIELDS: seq<Field> := [GarageNumber, VehicleId, Plate]

  datatype Record = Record(garageNumber: string, vehicleId: string, plate: string, ip: string,
                           optional: map<string, string>) {
    function Get(field: Field): string {
      match field
      case GarageNumber => garageNumber
      case VehicleId => vehicleId
      case Plate => plate
    }
  }

  datatype Error =
    | NotConfigured | Unreadable | EmptyQuery | NotFound | Ambiguous | InvalidIp | NoIdentifier
    | RowWithoutIp(row: nat) | RowWithoutIdentifier(row: nat)

  /** A row of the file: the columns it has a value for. */
  type Row = map<string, string>

  const OPTIONAL := ["mac", "model", "branch", "updated_at", "comment"]

  function Cell(row: Row, key: string): string {
    Join(Words(if key in row then row[key] else ""))
  }

  function RecordFromRow(row: Row, number: nat): Result<Record, Error> {
    var r := Record(Cell(row, "garage_number"), Cell(row, "vehicle_id"), Cell(row, "plate"), Cell(row, "ip"),
                    map key | key in OPTIONAL :: Cell(row, key));
    if r.ip == "" then Err(RowWithoutIp(number))
    else if r.garageNumber == "" && r.vehicleId == "" && r.plate == "" then Err(RowWithoutIdentifier(number))
    else Ok(r)
  }

  /** The records of a file, or the error of its first bad row; the first data row is row 2. */
  function Parse(rows: seq<Row>): Result<seq<Record>, Error> {
    if rows == [] then Ok([])
    else
      var n := |rows| - 1;
      match Parse(rows[..n])
      case Err(e) => Err(e)
      case Ok(records) =>
        match RecordFromRow(rows[n], n + 2)
        case Err(e) => Err(e)
        case Ok(r) => Ok(records + [r])
  }

  lemma {:induction false} FirstErrorStands(rows: seq<Row>, n: nat)
    requires n <= |rows| && Parse(rows[..n]).Err?
    ensures Parse(rows) == Parse(rows[..n])
    decreases |rows| - n
  {
    if n == |rows| {
      assert rows[..n] == rows;
    } else {
      assert rows[..n + 1][..n] == rows[..n];
      FirstErrorStands(rows, n + 1);
    }
  }

  /** The text of a column, spelt with single spaces; nothing where the column is missing. */
  function Column(row: Row, key: string): string {
    if key in row then Normalize(row[key]) else ""
  }

  /** A record is its row, column by column. */
  ghost predicate ReadFrom(r: Record, row: Row) {
    && r.garageNumber == Column(row, "garage_number") && r.vehicleId == Column(row, "vehicle_id")
    && r.plate == Column(row, "plate") && r.ip == Column(row, "ip")
    && r.optional.Keys == {"mac", "model", "branch", "updated_at", "comment"}
    && forall key :: key in r.optional ==> r.optional[key] == Column(row, key)
  }

  /** A row has an address and at least one identifier. */
  ghost predicate Complete(row: Row) {
    && Column(row, "ip") != ""
    && (Column(row, "garage_number") != "" || Column(row, "vehicle_id") != "" || Column(row, "plate") != "")
  }

  lemma RowIsRead(row: Row, number: nat)
    ensures Complete(row) <==> RecordFromRow(row, number).Ok?
    ensures RecordFromRow(row, number).Ok? ==> ReadFrom(RecordFromRow(row, number).value, row)
    ensures RecordFromRow(row, number).Err? ==>
              RecordFromRow(row, number).error
                == if Column(row, "ip") == "" then RowWithoutIp(number) else RowWithoutIdentifier(number)
  {
    hide Cell, Column, OPTIONAL;
    CellIsColumn(row, "garage_number");
    CellIsColumn(row, "vehicle_id");
    CellIsColumn(row, "plate");
    CellIsColumn(row, "ip");
    OptionalColumns(row);
  }

  lemma CellIsColumn(row: Row, key: string)
    ensures Cell(row, key) == Column(row, key)
  {
    if key in row {
      PlateIsIdentifier(row[key]);
    }
  }

  lemma OptionalColumns(row: Row)
    ensures var optional := map key | key in OPTIONAL :: Cell(row, key);
            && optional.Keys == {"mac", "model", "branch", "updated_at", "comment"}
            && forall key :: key in optional ==> optional[key] == Column(row, key)
  {
    forall key
      ensures Cell(row, key) == Column(row, key)
    {
      CellIsColumn(row, key);
    }
    hide Cell, Column;
  }

  /** Row `i` is the first that is not complete, and this is its error. */
  ghost predicate FirstBad(rows: seq<Row>, i: nat, e: Error) {
    && i < |rows| && !Complete(rows[i]) && (forall j :: 0 <= j < i ==> Complete(rows[j]))
    && e == if Column(rows[i], "ip") == "" then RowWithoutIp(i + 2) else RowWithoutIdentifier(i + 2)
  }

  ghost predicate AllRead(records: seq<Record>, rows: seq<Row>) {
    |records| == |rows| && forall i :: 0 <= i < |rows| ==> Complete(rows[i]) && ReadFrom(records[i], rows[i])
  }

  /**
   What parsing makes of a file: one record for each row, in order and column by column, if every row is
   complete; else the error of the first row that is not, by its number in the file.
   */
  lemma {:induction false} ParseReadsRows(rows: seq<Row>)
    ensures Parse(rows).Ok? ==> AllRead(Parse(rows).value, rows)
    ensures Parse(rows).Err? ==> exists i :: FirstBad(rows, i, Parse(rows).error)
  {
    hide Complete, ReadFrom, RecordFromRow, Column;
    if rows != [] {
      var n := |rows| - 1;
      ParseReadsRows(rows[..n]);
      RowIsRead(rows[n], n + 2);
      if Parse(rows[..n]).Err? {
        var i :| FirstBad(rows[..n], i, Parse(rows[..n]).error);
        assert FirstBad(rows, i, Parse(rows).error);
      } else if Parse(rows).Err? {
        assert forall i :: 0 <= i < n ==> rows[..n][i] == rows[i];
        assert FirstBad(rows, n, Parse(rows).error);
      }
    }
  }

  predicate Matches(r: Record, field: Field, query: string) {
    Normalize(r.Get(field)) == query
  }

  function Select(records: seq<Record>, field: Field, query: string): seq<Record> {
    if records == [] then []
    else (if Matches(records[0], field, query) then [records[0]] else []) + Select(records[1..], field, query)
  }

  /** What one field has to say: its only match, an ambiguity, or nothing. */
  function ByField(records: seq<Record>, field: Field, query: string, isIp: string -> bool): Option<Result<Record,
      Error>> {
    var matches := Select(records, field, query);
    if |matches| == 1 then Some(if isIp(matches[0].ip) then Ok(matches[0]) else Err(InvalidIp))
    else if |matches| > 1 then Some(Err(Ambiguous))
    else None
  }

  function FirstAnswer(records: seq<Record>, fields: seq<Field>, query: string, isIp: string -> bool): Result<Record,
      Error> {
    if fields == [] then Err(NotFound)
    else
      match ByField(records, fields[0], query, isIp)
      case Some(answer) => answer
      case None => FirstAnswer(records, fields[1..], query, isIp)
  }

  /** The answer to a free query over given records. */
  function Resolve(records: seq<Record>, query: string, isIp: string -> bool): Result<Record, Error> {
    if Normalize(query) == "" then Err(EmptyQuery) else FirstAnswer(records, FIELDS, Normalize(query), isIp)
  }

  // --- Lookup equals its specification ------------------------------------------------------------

  /** `records[i]` is the only record that matches. */
  ghost predicate OnlyMatch(records: seq<Record>, field: Field, query: string, i: nat) {
    i < |records| && forall j :: 0 <= j < |records| ==> (Matches(records[j], field, query) <==> j == i)
  }

  ghost predicate NoMatch(records: seq<Record>, field: Field, query: string) {
    forall j :: 0 <= j < |records| ==> !Matches(records[j], field, query)
  }

  ghost predicate TwoMatches(records: seq<Record>, field: Field, query: string) {
    exists i, j :: 0 <= i < j < |records| && Matches(records[i], field, query) && Matches(records[j], field, query)
  }

  lemma {:induction false} SelectCounts(records: seq<Record>, field: Field, query: string)
    ensures Select(records, field, query) == [] <==> NoMatch(records, field, query)
    ensures |Select(records, field, query)| == 1 ==>
            exists i: nat :: OnlyMatch(records, field, query, i) && Select(records, field, query)[0] == records[i]
    ensures |Select(records, field, query)| > 1 ==> TwoMatches(records, field, query)
  {
    hide Matches;
    if records != [] {
      var rest := records[1..];
      SelectCounts(rest, field, query);
      var found := Select(rest, field, query);
      if Matches(records[0], field, query) {
        if found == [] {
          assert OnlyMatch(records, field, query, 0);
        } else {
          var j :| 0 <= j < |rest| && Matches(rest[j], field, query);
          assert Matches(records[j + 1], field, query);
        }
      } else {
        assert forall j :: 0 <= j < |rest| ==> rest[j] == records[j + 1];
        if |found| == 1 {
          var i: nat :| OnlyMatch(rest, field, query, i) && found[0] == rest[i];
          assert OnlyMatch(records, field, query, i + 1);
        } else if |found| > 1 {
          var i, j :| 0 <= i < j < |rest| && Matches(rest[i], field, query) && Matches(rest[j], field, query);
          assert Matches(records[i + 1], field, query) && Matches(records[j + 1], field, query);
        }
      }
    }
  }

  /** The first field of the priority order that matches anything. */
  ghost predicate Decides(records: seq<Record>, query: string, k: nat) {
    k < |FIELDS| && !NoMatch(records, FIELDS[k], query) && forall m :: 0 <= m < k ==> NoMatch(records, FIELDS[m], query)
  }

  lemma FieldSays(records: seq<Record>, field: Field, query: string, isIp: string -> bool)
    ensures var a := ByField(records, field, query, isIp);
            && (a.None? <==> NoMatch(records, field, query))
            && (a == Some(Err(Ambiguous)) <==> TwoMatches(records, field, query))
            && (a.Some? && a.value.Ok? ==>
               exists i: nat ::
                    OnlyMatch(records, field, query, i) && a.value.value == records[i] && isIp(records[i].ip))
            && (a == Some(Err(InvalidIp)) ==>
               exists i: nat :: OnlyMatch(records, field, query, i) && !isIp(records[i].ip))
            && (a.Some? && a.value.Err? ==> a.value.error == Ambiguous || a.value.error == InvalidIp)
  {
    SelectCounts(records, field, query);
    hide Matches, Select;
  }

  /**
   A query is answered with a record exactly when it is not blank and, in the first identifier
   field where anything matches, that record is the only match and has an IP address.
   Two matches there make it ambiguous, whatever later fields hold.
   */
  lemma ResolveMeetsSpecification(records: seq<Record>, query: string, isIp: string -> bool)
    ensures var q, r := Normalize(query), Resolve(records, query, isIp);
            && (r.Ok? <==> (q != "" && exists k: nat, i: nat ::
                 Decides(records, q, k) && OnlyMatch(records, FIELDS[k], q, i) && isIp(records[i].ip)))
            && (r.Ok? ==> exists k: nat, i: nat ::
                 Decides(records, q, k) && OnlyMatch(records, FIELDS[k], q, i) && r.value == records[i])
            && (r == Err(Ambiguous) <==>
               (q != "" && exists k: nat :: Decides(records, q, k) && TwoMatches(records, FIELDS[k], q)))
            && (r == Err(NotFound) <==> (q != "" && forall k :: 0 <= k < |FIELDS| ==> NoMatch(records, FIELDS[k], q)))
            && (r == Err(EmptyQuery) <==> q == "")
  {
    var q := Normalize(query);
    if q != "" {
      var d := FirstDeciding(records, q, isIp);
      hide FirstAnswer, Normalize, ByField;
      if d < |FIELDS| {
        FieldSays(records, FIELDS[d], q, isIp);
        Outcome(records, q, d);
      }
      hide OnlyMatch, TwoMatches, NoMatch;
    }
  }

  /** Finds the deciding field, or 3 if nothing matches anywhere. */
  lemma FirstDeciding(records: seq<Record>, query: string, isIp: string -> bool) returns (d: nat)
    ensures d <= |FIELDS| && forall m :: 0 <= m < d ==> NoMatch(records, FIELDS[m], query)
    ensures d < |FIELDS| ==>
              Decides(records, query, d)
              && ByField(records, FIELDS[d], query, isIp) == Some(FirstAnswer(records, FIELDS, query, isIp))
    ensures d == |FIELDS| ==> FirstAnswer(records, FIELDS, query, isIp) == Err(NotFound)
  {
    d := 0;
    assert FIELDS[0..] == FIELDS;
    while d < |FIELDS| && ByField(records, FIELDS[d], query, isIp).None?
      invariant d <= |FIELDS| && forall m :: 0 <= m < d ==> NoMatch(records, FIELDS[m], query)
      invariant FirstAnswer(records, FIELDS, query, isIp) == FirstAnswer(records, FIELDS[d..], query, isIp)
    {
      FieldSays(records, FIELDS[d], query, isIp);
      assert FIELDS[d..][1..] == FIELDS[d + 1..];
      d := d + 1;
    }
    if d < |FIELDS| {
      FieldSays(records, FIELDS[d], query, isIp);
      assert FIELDS[d..][0] == FIELDS[d];
    }
  }

  /** Only the deciding field matters, and it has one match or several. */
  lemma Outcome(records: seq<Record>, query: string, d: nat)
    requires Decides(records, query, d)
    ensures forall k: nat :: Decides(records, query, k) ==> k == d
    ensures forall i: nat, j: nat ::
              OnlyMatch(records, FIELDS[d], query, i) && OnlyMatch(records, FIELDS[d], query, j) ==>
              i == j
    ensures (exists i: nat :: OnlyMatch(records, FIELDS[d], query, i)) ==> !TwoMatches(records, FIELDS[d], query)
    ensures !NoMatch(records, FIELDS[d], query)
  {
    hide Matches;
  }

  /** Garage numbers go before vehicle ids, and these before plates: the only match there is the answer. */
  lemma PriorityIs(records: seq<Record>, query: string, i: nat, isIp: string -> bool)
    requires i < |records| && isIp(records[i].ip) && Normalize(query) != ""
    ensures OnlyMatch(records, GarageNumber, Normalize(query), i) ==> Resolve(records, query, isIp) == Ok(records[i])
    ensures NoMatch(records, GarageNumber, Normalize(query)) && OnlyMatch(records, VehicleId, Normalize(query), i) ==>
              Resolve(records, query, isIp) == Ok(records[i])
    ensures NoMatch(records, GarageNumber, Normalize(query)) && NoMatch(records, VehicleId, Normalize(query)) ==>
              OnlyMatch(records, Plate, Normalize(query), i) ==> Resolve(records, query, isIp) == Ok(records[i])
  {
    var q := Normalize(query);
    FieldSays(records, GarageNumber, q, isIp);
    FieldSays(records, VehicleId, q, isIp);
    FieldSays(records, Plate, q, isIp);
    OnlyAndNone(records, GarageNumber, q, i);
    OnlyAndNone(records, VehicleId, q, i);
    OnlyAndNone(records, Plate, q, i);
    FirstOfThree(records, q, isIp);
    hide Matches, OnlyMatch, NoMatch, TwoMatches, ByField, FirstAnswer, Normalize;
  }

  lemma OnlyAndNone(records: seq<Record>, field: Field, query: string, i: nat)
    ensures OnlyMatch(records, field, query, i) ==>
              && !NoMatch(records, field, query) && !TwoMatches(records, field, query)
              && forall j: nat :: OnlyMatch(records, field, query, j) ==> j == i
  {
    hide Matches;
    if OnlyMatch(records, field, query, i) {
      assert Matches(records[i], field, query);
    }
  }

  lemma FirstOfThree(records: seq<Record>, query: string, isIp: string -> bool)
    ensures var a := ByField(records, GarageNumber, query, isIp);
            var b := ByField(records, VehicleId, query, isIp);
            var c := ByField(records, Plate, query, isIp);
            FirstAnswer(records, FIELDS, query, isIp) ==
              if a.Some? then a.value else if b.Some? then b.value else if c.Some? then c.value else Err(NotFound)
  {
    hide ByField;
    var two, one := [VehicleId, Plate], [Plate];
    assert FIELDS[1..] == two && two[1..] == one && one[1..] == [];
    assert FirstAnswer(records, one, query, isIp)
        == match ByField(records, Plate, query, isIp) case Some(answer) => answer case None => Err(NotFound);
    assert FirstAnswer(records, two, query, isIp)
        == match ByField(records, VehicleId, query, isIp)
           case Some(answer) => answer
           case None => FirstAnswer(records, one, query, isIp);
  }

  /** A record without a value in a field is never found by that field. */
  lemma BlankNeverMatches(r: Record, field: Field, query: string)
    requires Words(query) != [] && Words(r.Get(field)) == []
    ensures !Matches(r, field, Normalize(query))
  {
    NormalizeKeepsWords(r.Get(field), query);
  }

  /** Spelling a query with other whitespace, or more of it, does not change the answer. */
  lemma WhitespaceDoesNotMatter(records: seq<Record>, a: string, b: string, isIp: string -> bool)
    requires Words(a) == Words(b)
    ensures Resolve(records, a, isIp) == Resolve(records, b, isIp)
  {
    NormalizeKeepsWords(a, b);
  }

  // --- The file and its cache -----------------------------------------------------------------------

  datatype File = Missing | Broken(mtime: int) | Readable(mtime: int, rows: seq<Row>)

  /** What loading says without a cache. */
  function Fresh(file: File): Result<seq<Record>, Error> {
    match file
    case Missing => Err(NotConfigured)
    case Broken(_) => Err(Unreadable)
    case Readable(_, rows) => Parse(rows)
  }

  /** A vehicle as a request describes it. */
  datatype Vehicle = Vehicle(identifiers: map<Field, string>, number: Option<string>)

  function Named(v: Vehicle, fields: seq<Field>): (r: Option<Field>)
    ensures r.Some? ==> r.value in v.identifiers
  {
    if fields == [] then None
    else if fields[0] in v.identifiers && Strip(v.identifiers[fields[0]]) != "" then Some(fields[0])
    else Named(v, fields[1..])
  }

  /** The answer for a vehicle, given what loading says. */
  function ResolveVehicleIn(loaded: Result<seq<Record>, Error>, v: Vehicle, isIp: string -> bool): Result<Record,
      Error> {
    match Named(v, FIELDS)
    case Some(field) =>
      if loaded.Err? then Err(loaded.error)
      else
        var answer := ByField(loaded.value, field, Normalize(v.identifiers[field]), isIp);
        if answer.Some? then answer.value else Err(NotFound)
    case None =>
      if v.number.Some? && Strip(v.number.value) != "" then ResolveQueryIn(loaded, v.number.value, isIp)
        else Err(NoIdentifier)
  }

  function ResolveQueryIn(loaded: Result<seq<Record>, Error>, query: string, isIp: string -> bool): Result<Record,
      Error> {
    if Normalize(query) == "" then Err(EmptyQuery)
    else if loaded.Err? then Err(loaded.error)
    else Resolve(loaded.value, query, isIp)
  }

  class VehicleInventory {
    var records: seq<Record>
    var loadedMtime: Option<int>
    ghost var basis: seq<Row>        // the content last loaded

    ghost predicate Valid()
      reads this
    {
      loadedMtime.Some? ==> Parse(basis) == Ok(records)
    }

    /** What loading says with the cache: the content last loaded, if the mtime is still the same. */
    ghost function Cached(file: File): Result<seq<Record>, Error>
      reads this
    {
      if !file.Missing? && loadedMtime == Some(file.mtime) then Parse(basis) else Fresh(file)
    }

    /** A change of content has changed the mtime. */
    ghost predicate Honest(file: File)
      reads this
    {
      !file.Missing? && loadedMtime == Some(file.mtime) ==> file == Readable(file.mtime, basis)
    }

    /** The cache is as it was, or holds this file. */
    twostate predicate LoadedAtMost(file: File)
      reads this
    {
      || (loadedMtime == old(loadedMtime) && basis == old(basis))
      || (loadedMtime.Some? && file == Readable(loadedMtime.value, basis))
    }

    constructor ()
      ensures Valid() && loadedMtime == None
    {
      records, loadedMtime, basis := [], None, [];
    }

    /** Parses the file unless it was parsed under this mtime; an error leaves the cache alone. */
    method LoadRecords(file: File) returns (r: Result<seq<Record>, Error>)
      requires Valid()
      modifies this
      ensures Valid() && LoadedAtMost(file) && r == old(Cached(file))
      ensures old(Honest(file)) ==> r == Fresh(file)
      ensures r.Ok? ==> loadedMtime == Some(file.mtime) && records == r.value
      ensures r.Err? ==> records == old(records) && loadedMtime == old(loadedMtime) && basis == old(basis)
    {
      if file.Missing? {
        return Err(NotConfigured);
      }
      if loadedMtime == Some(file.mtime) {
        return Ok(records);
      }
      if file.Broken? {
        return Err(Unreadable);
      }
      hide Parse;
      r := ReadRows(file.rows);
      if r.Ok? {
        records, loadedMtime, basis := r.value, Some(file.mtime), file.rows;
      }
    }

    /** The loop over the rows; the first bad one ends it. */
    static method ReadRows(rows: seq<Row>) returns (r: Result<seq<Record>, Error>)
      ensures r == Parse(rows)
    {
      hide RecordFromRow;
      var parsed: seq<Record> := [];
      var n := 0;
      while n < |rows|
        invariant 0 <= n <= |rows|
        invariant Parse(rows[..n]) == Ok(parsed)
      {
        assert rows[..n + 1][..n] == rows[..n];
        match RecordFromRow(rows[n], n + 2) {
          case Err(e) =>
            FirstErrorStands(rows, n + 1);
            return Err(e);
          case Ok(record) => parsed := parsed + [record];
        }
        n := n + 1;
      }
      assert rows[..n] == rows;
      r := Ok(parsed);
    }

    /** The loop over the identifier fields. */
    method ResolveQuery(file: File, query: string, isIp: string -> bool) returns (r: Result<Record, Error>)
      requires Valid()
      modifies this
      ensures Valid() && LoadedAtMost(file) && r == ResolveQueryIn(old(Cached(file)), query, isIp)
      ensures old(Honest(file)) ==> r == ResolveQueryIn(Fresh(file), query, isIp)
    {
      var wanted := Normalize(query);
      if wanted == "" {
        return Err(EmptyQuery);
      }
      var loaded := LoadRecords(file);
      if loaded.Err? {
        return Err(loaded.error);
      }
      var n := 0;
      assert FIELDS[0..] == FIELDS;
      while n < |FIELDS|
        invariant 0 <= n <= |FIELDS|
        invariant FirstAnswer(loaded.value, FIELDS, wanted, isIp)
                  == FirstAnswer(loaded.value, FIELDS[n..], wanted, isIp)
      {
        var matches := Select(loaded.value, FIELDS[n], wanted);
        if |matches| == 1 {
          return if isIp(matches[0].ip) then Ok(matches[0]) else Err(InvalidIp);
        }
        if |matches| > 1 {
          return Err(Ambiguous);
        }
        assert FIELDS[n..][1..] == FIELDS[n + 1..];
        n := n + 1;
      }
      return Err(NotFound);
    }

    method ResolveVehicle(file: File, v: Vehicle, isIp: string -> bool) returns (r: Result<Record, Error>)
      requires Valid()
      modifies this
      ensures Valid() && LoadedAtMost(file) && r == ResolveVehicleIn(old(Cached(file)), v, isIp)
      ensures old(Honest(file)) ==> r == ResolveVehicleIn(Fresh(file), v, isIp)
    {
      var n := 0;
      assert FIELDS[0..] == FIELDS;
      while n < |FIELDS|
        invariant 0 <= n <= |FIELDS|
        invariant Named(v, FIELDS) == Named(v, FIELDS[n..])
        invariant Valid() && records == old(records) && loadedMtime == old(loadedMtime) && basis == old(basis)
      {
        var field := FIELDS[n];
        if field in v.identifiers && Strip(v.identifiers[field]) != "" {
          var loaded := LoadRecords(file);
          if loaded.Err? {
            return Err(loaded.error);
          }
          var matches := Select(loaded.value, field, Normalize(v.identifiers[field]));
          if |matches| == 1 {
            return if isIp(matches[0].ip) then Ok(matches[0]) else Err(InvalidIp);
          }
          return if |matches| > 1 then Err(Ambiguous) else Err(NotFound);
        }
        assert FIELDS[n..][1..] == FIELDS[n + 1..];
        n := n + 1;
      }
      if v.number.Some? && Strip(v.number.value) != "" {
        r := ResolveQuery(file, v.number.value, isIp);
      } else {
        r := Err(NoIdentifier);
      }
    }

    /**
     A new inventory, asked any number of times while the file changes in between: as long as
     equal mtimes mean equal content, each answer is that of a fresh parse of the file as it then is.
     */
    method AnswerAll(visits: seq<Visit>, isIp: string -> bool) returns (answers: seq<Result<Record, Error>>)
      requires Valid() && loadedMtime == None
      modifies this
      ensures Valid() && |answers| == |visits|
      ensures MtimesTell(visits) ==> forall i :: 0 <= i < |visits| ==> answers[i] == FreshAnswer(visits[i], isIp)
    {
      hide ResolveQueryIn, ResolveVehicleIn, Fresh, Parse;
      answers := [];
      for i := 0 to |visits|
        invariant Valid() && |answers| == i
        invariant loadedMtime.Some? ==> exists k :: 0 <= k < i && visits[k].file == Readable(loadedMtime.value, basis)
        invariant MtimesTell(visits) ==> forall k :: 0 <= k < i ==> answers[k] == FreshAnswer(visits[k], isIp)
      {
        var visit := visits[i];
        if MtimesTell(visits) && loadedMtime.Some? {
          ghost var k :| 0 <= k < i && visits[k].file == Readable(loadedMtime.value, basis);
          assert SameContent(visits[k].file, visit.file);
        }
        var answer;
        match visit.request {
          case ByQuery(query) => answer := ResolveQuery(visit.file, query, isIp);
          case ByVehicle(v) => answer := ResolveVehicle(visit.file, v, isIp);
        }
        answers := answers + [answer];
      }
    }
  }

  datatype Request = ByQuery(query: string) | ByVehicle(v: Vehicle)

  /** The file as it is when a request comes, and the request. */
  datatype Visit = Visit(file: File, request: Request)

  predicate SameContent(f: File, g: File) {
    !f.Missing? && !g.Missing? && f.mtime == g.mtime ==> f == g
  }

  predicate MtimesTell(visits: seq<Visit>) {
    forall i, j :: 0 <= i < j < |visits| ==> SameContent(visits[i].file, visits[j].file)
  }

  function FreshAnswer(visit: Visit, isIp: string -> bool): Result<Record, Error> {
    match visit.request
    case ByQuery(query) => ResolveQueryIn(Fresh(visit.file), query, isIp)
    case ByVehicle(v) => ResolveVehicleIn(Fresh(visit.file), v, isIp)
  }
}
