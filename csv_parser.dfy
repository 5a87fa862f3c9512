/**
 * CSV ingestion for AutoML: the file's text becomes a numeric feature matrix,
 * a target column and a data profile, or a failure with a reason.
 *
 * This is not an RFC 4180 reader: fields are split on the delimiter without
 * any quote handling. The conversion of a cell to a number (JavaScript's
 * `Number`, with NaN as failure) is the parameter `parseNum`.
 */
module CsvParser {
  import opened Wrappers
  import opened Seqs
  import opened Strings
  import opened MesTypes

  const MaxRows: nat := 5000

  const EmptyFileError := "파일이 비어 있거나 헤더 외 데이터 행이 없습니다."
  const HeaderError := "헤더(컬럼)가 2개 이상이어야 합니다. 마지막 컬럼은 타깃(레이블)으로 사용됩니다."
  const RowsError := "숫자만 있는 유효한 데이터 행이 2행 미만입니다. 모든 셀이 숫자인지, 구분자는 쉼표(,) 또는 세미콜론(;)인지 확인해 주세요."

  datatype CsvResult =
    | Failure(error: string)
    | Success(features: seq<seq<real>>, target: seq<real>, profile: DataProfile)

  // ---------------------------------------------------------------------------
  // Lines and cells
  // ---------------------------------------------------------------------------

  /** Drops one `\r` at the end of a piece (the `\r?` of the separator). */
  function DropCR(s: string): string {
    if s != [] && s[|s| - 1] == '\r' then s[..|s| - 1] else s
  }

  /** `text.split(/\r?\n/)`: split at each `\n`, a `\r` just before it belonging to the separator. */
  function SplitLines(text: string): (r: seq<string>)
    ensures |r| >= 1
  {
    var pieces := Split(text, '\n');
    Map(pieces[..|pieces| - 1], DropCR) + [pieces[|pieces| - 1]]
  }

  function NotBlank(line: string): bool { |Trim(line)| > 0 }

  /** The non-blank lines of the text. */
  function Lines(text: string): seq<string> {
    Filter(SplitLines(text), NotBlank)
  }

  /** `;` when the header line holds one, else `,`. */
  function Delimiter(header: string): char {
    if Contains(header, ";") then ';' else ','
  }

  /** `line.split(delimiter).map(c => c.trim())` */
  function Cells(line: string, delimiter: char): (r: seq<string>)
    ensures |r| >= 1
  {
    Map(Split(line, delimiter), Trim)
  }

  /** What happens to one data line. */
  datatype RowOutcome = WrongWidth | NotNumeric | Numeric(values: seq<real>)

  /** Converts every cell, or reports that one of them is not a number. */
  function ParseCells(cells: seq<string>, parseNum: string -> Option<real>): (r: Option<seq<real>>)
    ensures r.Some? ==> |r.value| == |cells|
    ensures r.Some? <==> forall k :: 0 <= k < |cells| ==> parseNum(cells[k]).Some?
    ensures r.Some? ==> forall k :: 0 <= k < |cells| ==> r.value[k] == parseNum(cells[k]).value
  {
    if cells == [] then Some([])
    else
      var front := ParseCells(cells[..|cells| - 1], parseNum);
      var last := parseNum(cells[|cells| - 1]);
      if front.Some? && last.Some? then Some(front.value + [last.value]) else None
  }

  function ParseRow(line: string, delimiter: char, width: nat, parseNum: string -> Option<real>): RowOutcome {
    var cells := Cells(line, delimiter);
    if |cells| != width then WrongWidth
    else match ParseCells(cells, parseNum)
      case None => NotNumeric
      case Some(values) => Numeric(values)
  }

  // ---------------------------------------------------------------------------
  // The row scan
  // ---------------------------------------------------------------------------

  datatype ScanState = ScanState(rows: seq<seq<real>>, missing: nat)

  /** One turn of the row loop; nothing happens once the row cap is reached. */
  function Step(st: ScanState, line: string, delimiter: char, width: nat, parseNum: string -> Option<real>): ScanState {
    if |st.rows| >= MaxRows then st
    else match ParseRow(line, delimiter, width, parseNum)
      case WrongWidth => st
      case NotNumeric => st.(missing := st.missing + 1)
      case Numeric(values) => if |values| > 0 then st.(rows := st.rows + [values]) else st
  }

  /** The row loop over the data lines, as a fold. */
  function Scan(data: seq<string>, delimiter: char, width: nat, parseNum: string -> Option<real>): ScanState {
    if data == [] then ScanState([], 0)
    else Step(Scan(data[..|data| - 1], delimiter, width, parseNum), data[|data| - 1], delimiter, width, parseNum)
  }

  /** The row a data line contributes when it is admitted: its values, if there are any. */
  function AdmittedRow(line: string, delimiter: char, width: nat, parseNum: string -> Option<real>): seq<seq<real>> {
    match ParseRow(line, delimiter, width, parseNum)
    case Numeric(values) => if |values| > 0 then [values] else []
    case _ => []
  }

  /** The numeric rows of the data lines, uncapped: an independent description of what is admitted. */
  function NumericRows(data: seq<string>, delimiter: char, width: nat, parseNum: string -> Option<real>): seq<seq<real>> {
    if data == [] then []
    else NumericRows(data[..|data| - 1], delimiter, width, parseNum) + AdmittedRow(data[|data| - 1], delimiter, width, parseNum)
  }

  function IsNotNumeric(delimiter: char, width: nat, parseNum: string -> Option<real>): string -> bool {
    line => ParseRow(line, delimiter, width, parseNum).NotNumeric?
  }

  /**
   * The scan keeps the numeric rows in file order, at most `MaxRows` of them;
   * each has one value per header. While the cap is not reached every
   * non-numeric line adds exactly one to the missing count, and lines of the
   * wrong width add nothing.
   */
  lemma {:induction false} ScanSpec(data: seq<string>, delimiter: char, width: nat, parseNum: string -> Option<real>)
    ensures var st := Scan(data, delimiter, width, parseNum);
      && st.rows == Take(NumericRows(data, delimiter, width, parseNum), MaxRows)
      && (forall k :: 0 <= k < |st.rows| ==> |st.rows[k]| == width)
      && (|NumericRows(data, delimiter, width, parseNum)| < MaxRows ==>
            st.missing == Count(data, IsNotNumeric(delimiter, width, parseNum)))
  {
    if data != [] {
      var prefix, line := data[..|data| - 1], data[|data| - 1];
      ScanSpec(prefix, delimiter, width, parseNum);
      ScanStep(Scan(prefix, delimiter, width, parseNum), NumericRows(prefix, delimiter, width, parseNum),
               Count(prefix, IsNotNumeric(delimiter, width, parseNum)), line, delimiter, width, parseNum);
    }
  }

  /** What `ScanSpec` states of a scan state, the uncapped rows and the uncapped missing count. */
  ghost predicate Summarises(st: ScanState, all: seq<seq<real>>, missing: nat, width: nat) {
    && st.rows == Take(all, MaxRows)
    && (forall k :: 0 <= k < |st.rows| ==> |st.rows[k]| == width)
    && (|all| < MaxRows ==> st.missing == missing)
  }

  /** One more line keeps the scan state in step with the uncapped rows and count. */
  lemma ScanStep(st: ScanState, all: seq<seq<real>>, missing: nat, line: string, delimiter: char, width: nat,
                 parseNum: string -> Option<real>)
    requires Summarises(st, all, missing, width)
    ensures Summarises(Step(st, line, delimiter, width, parseNum), all + AdmittedRow(line, delimiter, width, parseNum),
                       missing + (if ParseRow(line, delimiter, width, parseNum).NotNumeric? then 1 else 0), width)
  {
    var extra := AdmittedRow(line, delimiter, width, parseNum);
    if |all| >= MaxRows {
      assert Take(all + extra, MaxRows) == Take(all, MaxRows);
    }
  }

  // ---------------------------------------------------------------------------
  // The whole parse
  // ---------------------------------------------------------------------------

  /** The profile of a parsed file: every feature column is continuous. */
  function CsvProfile(featureNames: seq<string>, rowCount: nat, missingCount: nat): DataProfile {
    DataProfile(featureNames, rowCount, 0.15, true, Min(100, missingCount),
                map f | f in featureNames :: "Continuous")
  }

  function AllButLast(row: seq<real>): seq<real> {
    if row == [] then [] else row[..|row| - 1]
  }

  function Last(row: seq<real>): real {
    if row == [] then 0.0 else row[|row| - 1]
  }

  /** `parseCsvForAutoml` on the file's text. */
  function ParseCsv(text: string, parseNum: string -> Option<real>): CsvResult {
    var lines := Lines(text);
    if |lines| < 2 then Failure(EmptyFileError)
    else
      var delimiter := Delimiter(lines[0]);
      var headers := Cells(lines[0], delimiter);
      if |headers| < 2 then Failure(HeaderError)
      else
        var st := Scan(lines[1..], delimiter, |headers|, parseNum);
        if |st.rows| < 2 then Failure(RowsError)
        else
          Success(Map(st.rows, AllButLast), Map(st.rows, Last),
                  CsvProfile(headers[..|headers| - 1], |st.rows|, st.missing))
  }

  /**
   * A successful parse has as many feature rows as targets and as the
   * record count, between 2 and `MaxRows`; each feature row holds one value
   * per feature column, and the profile's features are all continuous, with
   * a missing count of at most 100 (`ParseCsvColumns` states which columns
   * and cells they are).
   */
  lemma ParseCsvSuccess(text: string, parseNum: string -> Option<real>)
    requires ParseCsv(text, parseNum).Success?
    ensures var r := ParseCsv(text, parseNum);
      && |r.features| == |r.target| == r.profile.recordsCount
      && 2 <= r.profile.recordsCount <= MaxRows
      && (forall k :: 0 <= k < |r.features| ==> |r.features[k]| == |r.profile.features|)
      && 1 <= |r.profile.features|
      && r.profile.noiseLevel == 0.15 && r.profile.seasonality
      && 0 <= r.profile.missingValues <= 100
      && (forall f :: f in r.profile.features ==> f in r.profile.dataTypes && r.profile.dataTypes[f] == "Continuous")
  {
    var lines := Lines(text);
    var delimiter := Delimiter(lines[0]);
    var headers := Cells(lines[0], delimiter);
    ScanSpec(lines[1..], delimiter, |headers|, parseNum);
  }

  /**
   * On success the profile's features are the header cells but the last, and
   * each kept row is its feature row followed by its target: the target of a
   * row is its last cell.
   */
  lemma ParseCsvColumns(text: string, parseNum: string -> Option<real>)
    requires ParseCsv(text, parseNum).Success?
    ensures |Lines(text)| >= 2
    ensures var r := ParseCsv(text, parseNum);
      var header := Lines(text)[0];
      var headers := Cells(header, Delimiter(header));
      var rows := Scan(Lines(text)[1..], Delimiter(header), |headers|, parseNum).rows;
      && |headers| >= 2
      && r.profile.features == headers[..|headers| - 1]
      && |rows| == |r.features| == |r.target|
      && (forall k :: 0 <= k < |rows| ==> rows[k] == r.features[k] + [r.target[k]])
  {
    var lines := Lines(text);
    var delimiter := Delimiter(lines[0]);
    var headers := Cells(lines[0], delimiter);
    var st := Scan(lines[1..], delimiter, |headers|, parseNum);
    assert ParseCsv(text, parseNum)
        == Success(Map(st.rows, AllButLast), Map(st.rows, Last), CsvProfile(headers[..|headers| - 1], |st.rows|, st.missing));
    ScanSpec(lines[1..], delimiter, |headers|, parseNum);
    SplitLastCells(st.rows, |headers|);
  }

  /** Rows of one non-zero width are each their cells but the last, followed by the last. */
  lemma SplitLastCells(rows: seq<seq<real>>, width: nat)
    requires width >= 1
    requires forall k :: 0 <= k < |rows| ==> |rows[k]| == width
    ensures forall k :: 0 <= k < |rows| ==> rows[k] == Map(rows, AllButLast)[k] + [Map(rows, Last)[k]]
  {
    forall k | 0 <= k < |rows|
      ensures rows[k] == AllButLast(rows[k]) + [Last(rows[k])]
    {
      assert |rows[k]| == width;
    }
  }

  /**
   * Failures: fewer than two non-blank lines, then fewer than two header
   * columns, then fewer than two numeric rows, each with its own message.
   */
  lemma ParseCsvFailure(text: string, parseNum: string -> Option<real>)
    ensures var lines := Lines(text);
      && (|lines| < 2 <==> ParseCsv(text, parseNum) == Failure(EmptyFileError))
      && (|lines| >= 2 ==>
            (|Cells(lines[0], Delimiter(lines[0]))| < 2 <==> ParseCsv(text, parseNum) == Failure(HeaderError)))
  {
    assert |EmptyFileError| != |HeaderError|;
  }

  /** The delimiter is `;` exactly when the header line holds one. */
  lemma DelimiterSpec(header: string)
    ensures Delimiter(header) == ';' <==> exists k :: 0 <= k < |header| && header[k] == ';'
  {
    ContainsSpec(header, ";");
    if exists k :: 0 <= k < |header| && header[k] == ';' {
      var k :| 0 <= k < |header| && header[k] == ';';
      assert header[k..k + 1] == [header[k]];
      assert OccursAt(header, ";", k);
    }
    if Contains(header, ";") {
      var k :| OccursAt(header, ";", k);
      assert header[k..k + 1][0] == header[k];
    }
  }

  /** A line is admitted iff it has the header's width and every trimmed cell is a number. */
  lemma RowAdmission(line: string, delimiter: char, width: nat, parseNum: string -> Option<real>)
    requires width >= 1
    ensures ParseRow(line, delimiter, width, parseNum).Numeric? <==>
      |Cells(line, delimiter)| == width
      && forall k :: 0 <= k < width ==> parseNum(Cells(line, delimiter)[k]).Some?
  {
  }

  // ---------------------------------------------------------------------------
  // The loop
  // ---------------------------------------------------------------------------

  /** The cell loop: converts the cells in order and stops at the first that is not a number. */
  method ConvertCells(cells: seq<string>, parseNum: string -> Option<real>) returns (row: seq<real>, valid: bool)
    ensures valid <==> ParseCells(cells, parseNum).Some?
    ensures valid ==> row == ParseCells(cells, parseNum).value
  {
    row := [];
    valid := true;
    var c := 0;
    while c < |cells|
      invariant 0 <= c <= |cells|
      invariant |row| == c
      invariant forall k :: 0 <= k < c ==> parseNum(cells[k]).Some? && row[k] == parseNum(cells[k]).value
    {
      var num := parseNum(cells[c]);
      if num.None? {
        valid := false;
        break;
      }
      row := row + [num.value];
      c := c + 1;
    }
  }

  /** One turn of the row loop, below the cap: skip, count as missing, or admit the line. */
  method ScanLine(rows: seq<seq<real>>, missing: nat, line: string, delimiter: char, width: nat,
                  parseNum: string -> Option<real>)
    returns (rows': seq<seq<real>>, missing': nat)
    requires |rows| < MaxRows
    ensures ScanState(rows', missing') == Step(ScanState(rows, missing), line, delimiter, width, parseNum)
  {
    rows', missing' := rows, missing;
    var cells := Cells(line, delimiter);
    if |cells| != width {
      return;
    }
    var row, valid := ConvertCells(cells, parseNum);
    if !valid {
      missing' := missing + 1;
    }
    if valid && |row| > 0 {
      rows' := rows + [row];
    }
  }

  /** `parseCsvForAutoml`: the row loop runs until the lines or the row cap are exhausted. */
  method ParseCsvForAutoml(text: string, parseNum: string -> Option<real>) returns (r: CsvResult)
    ensures r == ParseCsv(text, parseNum)
  {
    var lines := Lines(text);
    if |lines| < 2 {
      return Failure(EmptyFileError);
    }
    var delimiter := if Contains(lines[0], ";") then ';' else ',';
    assert delimiter == Delimiter(lines[0]);
    var headers := Cells(lines[0], delimiter);
    if |headers| < 2 {
      return Failure(HeaderError);
    }
    var featureNames := headers[..|headers| - 1];
    var rows, missingCount := ScanRows(lines[1..], delimiter, |headers|, parseNum);
    if |rows| < 2 {
      return Failure(RowsError);
    }
    var features := Map(rows, AllButLast);
    var target := Map(rows, Last);
    r := Success(features, target, CsvProfile(featureNames, |rows|, missingCount));
  }

  /** The row loop: runs until the data lines or the row cap are exhausted. */
  method ScanRows(data: seq<string>, delimiter: char, width: nat, parseNum: string -> Option<real>)
    returns (rows: seq<seq<real>>, missingCount: nat)
    ensures ScanState(rows, missingCount) == Scan(data, delimiter, width, parseNum)
  {
    rows, missingCount := [], 0;
    var i := 0;
    while i < |data| && |rows| < MaxRows
      invariant 0 <= i <= |data|
      invariant ScanState(rows, missingCount) == Scan(data[..i], delimiter, width, parseNum)
    {
      ScanPrefixStep(data, i, delimiter, width, parseNum);
      rows, missingCount := ScanLine(rows, missingCount, data[i], delimiter, width, parseNum);
      i := i + 1;
    }
    CappedScanStops(data, i, delimiter, width, parseNum);
  }

  lemma ScanPrefixStep(data: seq<string>, i: nat, delimiter: char, width: nat, parseNum: string -> Option<real>)
    requires i < |data|
    ensures Scan(data[..i + 1], delimiter, width, parseNum) == Step(Scan(data[..i], delimiter, width, parseNum), data[i], delimiter, width, parseNum)
  {
    assert data[..i + 1][..i] == data[..i];
  }

  /** Once the cap is reached, the remaining lines change nothing. */
  lemma {:induction false} CappedScanStops(data: seq<string>, n: nat, delimiter: char, width: nat, parseNum: string -> Option<real>)
    requires n <= |data|
    requires n == |data| || |Scan(data[..n], delimiter, width, parseNum).rows| >= MaxRows
    ensures Scan(data, delimiter, width, parseNum) == Scan(data[..n], delimiter, width, parseNum)
    decreases |data|
  {
    if n < |data| {
      var prefix := data[..|data| - 1];
      assert prefix[..n] == data[..n];
      CappedScanStops(prefix, n, delimiter, width, parseNum);
    } else {
      assert data[..n] == data;
    }
  }
}
