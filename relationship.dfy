/**
 * The relationship editor of the legacy front-end: a list of triples with
 * add, delete and bulk delete, a bounded undo/redo history of list
 * snapshots, case-insensitive filtering and CSV export.
 *
 * Server calls and confirmation dialogs are not modelled; their outcomes are
 * the boolean parameters `confirmed` and `serverOk`. A missing label and an
 * empty label behave alike everywhere in the editor, so a label is a string
 * that is empty when absent.
 */
module RelationshipEditor {
  import opened Wrappers
  import opened Seqs
  import opened Strings

  /** The add form's triple (`pred` and `obj` stand for predicate and object, both reserved words). */
  datatype Triple = Triple(subject: string, pred: string, obj: string)

  /** A listed relationship: a triple with display labels for its ends. */
  datatype Relationship = Relationship(subject: string, pred: string, obj: string,
                                       subjectLabel: string, objectLabel: string)

  const EmptyTriple := Triple("", "", "")

  /** Oldest snapshots are dropped beyond this many. */
  const MaxHistory: nat := 50

  /** `validateTriple`: all three parts non-empty. */
  predicate ValidTriple(t: Triple) {
    t.subject != "" && t.pred != "" && t.obj != ""
  }

  /** The relationship an accepted add puts at the front: labels are the subject and the object. */
  function Labelled(t: Triple): (r: Relationship)
    ensures r.subject == r.subjectLabel == t.subject
    ensures r.obj == r.objectLabel == t.obj
    ensures r.pred == t.pred
  {
    Relationship(t.subject, t.pred, t.obj, t.subject, t.obj)
  }

  predicate SameTriple(r: Relationship, t: Triple) {
    r.subject == t.subject && r.pred == t.pred && r.obj == t.obj
  }

  // ---------------------------------------------------------------------------
  // History
  // ---------------------------------------------------------------------------

  /** The snapshot list and the position of the current snapshot (-1: none yet). */
  datatype History = History(snapshots: seq<seq<Relationship>>, index: int)

  predicate HistoryValid(h: History) {
    && |h.snapshots| <= MaxHistory
    && -1 <= h.index < |h.snapshots|
    && (h.index == -1 <==> h.snapshots == [])
  }

  /** `saveToHistory`: cut the redo tail, append, and drop the oldest beyond the cap. */
  function Save(h: History, current: seq<Relationship>): History
    requires HistoryValid(h)
  {
    var kept := h.snapshots[..h.index + 1] + [current];
    if |kept| > MaxHistory then History(kept[1..], |kept| - 2) else History(kept, |kept| - 1)
  }

  /** `undo`: step back when there is an earlier snapshot. */
  function UndoStep(h: History): History {
    if h.index > 0 then h.(index := h.index - 1) else h
  }

  /** `redo`: step forward when there is a later snapshot. */
  function RedoStep(h: History): History {
    if h.index < |h.snapshots| - 1 then h.(index := h.index + 1) else h
  }

  /**
   * Saving keeps the history valid and within the cap; the saved list is the
   * current snapshot and at the end, the index points at it, so nothing is
   * left to redo; what precedes it are the snapshots up to the old index,
   * the oldest of them dropped only when the cap is exceeded.
   */
  lemma SaveSpec(h: History, current: seq<Relationship>)
    requires HistoryValid(h)
    ensures var s := Save(h, current);
      && HistoryValid(s)
      && s.index == |s.snapshots| - 1
      && s.snapshots[s.index] == current
      && RedoStep(s) == s
      && (h.index + 2 <= MaxHistory ==> s.snapshots == h.snapshots[..h.index + 1] + [current])
      && (h.index + 2 > MaxHistory ==> s.snapshots == h.snapshots[1..h.index + 1] + [current])
  {
    var kept := h.snapshots[..h.index + 1] + [current];
    if |kept| > MaxHistory {
      assert kept[1..] == h.snapshots[1..h.index + 1] + [current];
    }
  }

  /** Undo and redo never leave the valid histories and never change the snapshots. */
  lemma UndoRedoKeepValid(h: History)
    requires HistoryValid(h)
    ensures HistoryValid(UndoStep(h)) && UndoStep(h).snapshots == h.snapshots
    ensures HistoryValid(RedoStep(h)) && RedoStep(h).snapshots == h.snapshots
  {
  }

  /** Redo takes back an undo that moved, and undo takes back a redo that moved. */
  lemma UndoRedoInverse(h: History)
    requires HistoryValid(h)
    ensures h.index > 0 ==> RedoStep(UndoStep(h)) == h
    ensures h.index < |h.snapshots| - 1 && h.index >= 0 ==> UndoStep(RedoStep(h)) == h
  {
  }

  /**
   * Undo right after a save returns to the snapshot that was current before
   * it, unless the save dropped the oldest snapshot and that was the one.
   */
  lemma UndoAfterSave(h: History, current: seq<Relationship>)
    requires HistoryValid(h) && h.index >= 0
    requires h.index + 2 <= MaxHistory
    ensures var u := UndoStep(Save(h, current));
      u.index == h.index && u.snapshots[u.index] == h.snapshots[h.index]
  {
  }

  // ---------------------------------------------------------------------------
  // List operations
  // ---------------------------------------------------------------------------

  /** The list after a delete: entries equal to the triple on subject, predicate and object go. */
  function Without(rels: seq<Relationship>, t: Triple): seq<Relationship> {
    Filter(rels, r => !SameTriple(r, t))
  }

  /** The list after a bulk delete: entries equal to any selected triple go. */
  function WithoutAny(rels: seq<Relationship>, selected: seq<Triple>): seq<Relationship> {
    Filter(rels, r => !exists k :: 0 <= k < |selected| && SameTriple(r, selected[k]))
  }

  /** A delete keeps, in order, exactly the entries not equal to the triple. */
  lemma WithoutSpec(rels: seq<Relationship>, t: Triple)
    ensures forall r :: r in Without(rels, t) <==> r in rels && !SameTriple(r, t)
    ensures |Without(rels, t)| <= |rels|
    ensures (forall k :: 0 <= k < |rels| ==> !SameTriple(rels[k], t)) ==> Without(rels, t) == rels
  {
    var p := (r: Relationship) => !SameTriple(r, t);
    FilterSpec(rels, p);
    if forall k :: 0 <= k < |rels| ==> !SameTriple(rels[k], t) {
      FilterAll(rels, p);
    }
  }

  /** A bulk delete of one triple is a delete of that triple; of none, it keeps everything. */
  lemma WithoutAnySpec(rels: seq<Relationship>, selected: seq<Triple>)
    ensures forall r :: r in WithoutAny(rels, selected) <==>
      r in rels && forall k :: 0 <= k < |selected| ==> !SameTriple(r, selected[k])
    ensures |selected| == 1 ==> WithoutAny(rels, selected) == Without(rels, selected[0])
    ensures selected == [] ==> WithoutAny(rels, selected) == rels
  {
    var p := (r: Relationship) => !exists k :: 0 <= k < |selected| && SameTriple(r, selected[k]);
    FilterSpec(rels, p);
    if |selected| == 1 {
      FilterSameAsWithout(rels, selected[0], p);
    }
    if selected == [] {
      FilterAll(rels, p);
    }
  }

  lemma {:induction false} FilterSameAsWithout(rels: seq<Relationship>, t: Triple, p: Relationship -> bool)
    requires forall r :: p(r) == !SameTriple(r, t)
    ensures Filter(rels, p) == Without(rels, t)
  {
    if rels != [] {
      FilterSameAsWithout(rels[..|rels| - 1], t, p);
    }
  }

  // ---------------------------------------------------------------------------
  // Filtering
  // ---------------------------------------------------------------------------

  /** Whether a relationship mentions the lower-cased search term. */
  predicate Mentions(r: Relationship, term: string) {
    || Contains(ToLower(r.subject), term)
    || Contains(ToLower(r.pred), term)
    || Contains(ToLower(r.obj), term)
    || (r.subjectLabel != "" && Contains(ToLower(r.subjectLabel), term))
    || (r.objectLabel != "" && Contains(ToLower(r.objectLabel), term))
  }

  /** `filterRelationships`: the whole list for an empty filter, else the entries mentioning it, case-insensitively. */
  function FilterRelationships(rels: seq<Relationship>, filter: string): seq<Relationship> {
    if filter == "" then rels else Filter(rels, r => Mentions(r, ToLower(filter)))
  }

  /**
   * An empty filter keeps the list; otherwise the result is the ordered
   * subsequence of entries that mention the filter, with case ignored on both sides.
   */
  lemma FilterRelationshipsSpec(rels: seq<Relationship>, filter: string)
    ensures filter == "" ==> FilterRelationships(rels, filter) == rels
    ensures forall r :: r in FilterRelationships(rels, filter) <==>
      r in rels && (filter == "" || Mentions(r, ToLower(filter)))
    ensures |FilterRelationships(rels, filter)| <= |rels|
  {
    if filter != "" {
      FilterSpec(rels, r => Mentions(r, ToLower(filter)));
    }
  }

  /** Filtering with upper- or lower-case spellings of the same term gives the same list. */
  lemma FilterIgnoresCase(rels: seq<Relationship>, filter: string)
    ensures FilterRelationships(rels, ToLower(filter)) == FilterRelationships(rels, filter)
  {
    ToLowerSpec(filter);
  }

  // ---------------------------------------------------------------------------
  // CSV export
  // ---------------------------------------------------------------------------

  const CsvColumns := ["Subject", "Predicate", "Object", "Subject Label", "Object Label"]
  const CsvHeader := Join(CsvColumns, ",")

  function Quote(s: string): string { "\"" + s + "\"" }

  /** One exported row: the five fields in double quotes, separated by commas, embedded quotes left as they are. */
  function CsvLine(r: Relationship): string {
    Join([Quote(r.subject), Quote(r.pred), Quote(r.obj), Quote(r.subjectLabel), Quote(r.objectLabel)], ",")
  }

  /** The exported text: empty for no data, else the header and one line per row, joined by newlines. */
  function CsvText(data: seq<Relationship>): string {
    if data == [] then "" else Join([CsvHeader] + Map(data, CsvLine), "\n")
  }

  predicate NoNewline(r: Relationship) {
    '\n' !in r.subject && '\n' !in r.pred && '\n' !in r.obj
    && '\n' !in r.subjectLabel && '\n' !in r.objectLabel
  }

  lemma {:induction false} JoinKeepsOut(parts: seq<string>, sep: string, c: char)
    requires c !in sep
    requires forall k :: 0 <= k < |parts| ==> c !in parts[k]
    ensures c !in Join(parts, sep)
  {
    if |parts| > 1 {
      JoinKeepsOut(parts[1..], sep, c);
    }
  }

  /** A row without line breaks exports to a single line. */
  lemma CsvLineNoNewline(r: Relationship)
    requires NoNewline(r)
    ensures '\n' !in CsvLine(r)
  {
    var fields := [Quote(r.subject), Quote(r.pred), Quote(r.obj), Quote(r.subjectLabel), Quote(r.objectLabel)];
    forall j | 0 <= j < |fields|
      ensures '\n' !in fields[j]
    {
      QuoteKeepsOut([r.subject, r.pred, r.obj, r.subjectLabel, r.objectLabel][j], '\n');
    }
    JoinKeepsOut(fields, ",", '\n');
  }

  lemma QuoteKeepsOut(s: string, c: char)
    requires c != '"' && c !in s
    ensures c !in Quote(s)
  {
  }

  lemma HeaderNoNewline()
    ensures '\n' !in CsvHeader
  {
    assert forall j :: 0 <= j < |CsvColumns| ==> '\n' !in CsvColumns[j];
    JoinKeepsOut(CsvColumns, ",", '\n');
  }

  /**
   * Unless a field holds a line break, the export splits back, line by line,
   * into the header and one line per row, in order.
   */
  lemma CsvTextLines(data: seq<Relationship>)
    requires data != []
    requires forall k :: 0 <= k < |data| ==> NoNewline(data[k])
    ensures Split(CsvText(data), '\n') == [CsvHeader] + Map(data, CsvLine)
  {
    var lines := [CsvHeader] + Map(data, CsvLine);
    forall k | 0 <= k < |lines|
      ensures '\n' !in lines[k]
    {
      if k > 0 {
        CsvLineNoNewline(data[k - 1]);
      } else {
        HeaderNoNewline();
      }
    }
    SplitJoin(lines, '\n');
  }

  /** `convertToCSV`: builds the row list with a loop and joins it. */
  method ConvertToCsv(data: seq<Relationship>) returns (csv: string)
    ensures csv == CsvText(data)
  {
    if |data| == 0 {
      return "";
    }
    var csvRows := [CsvHeader];
    for k := 0 to |data|
      invariant csvRows == [CsvHeader] + Map(data[..k], CsvLine)
    {
      assert data[..k + 1] == data[..k] + [data[k]];
      csvRows := csvRows + [CsvLine(data[k])];
    }
    assert data[..|data|] == data;
    csv := Join(csvRows, "\n");
  }

  /** A quoted field holding `","` reads as two quoted fields. */
  lemma QuoteSplit(x: string, y: string)
    ensures Quote(x + "\",\"" + y) == Quote(x) + "," + Quote(y)
  {
  }

  lemma Join5(p1: string, p2: string, p3: string, p4: string, p5: string)
    ensures Join([p1, p2, p3, p4, p5], ",") == p1 + "," + (p2 + "," + (p3 + "," + (p4 + "," + p5)))
  {
    assert [p1, p2, p3, p4, p5][1..] == [p2, p3, p4, p5];
    assert [p2, p3, p4, p5][1..] == [p3, p4, p5];
    assert [p3, p4, p5][1..] == [p4, p5];
    assert [p4, p5][1..] == [p5];
    assert Join([p4, p5], ",") == p4 + "," + p5;
    assert Join([p3, p4, p5], ",") == p3 + "," + Join([p4, p5], ",");
    assert Join([p2, p3, p4, p5], ",") == p2 + "," + Join([p3, p4, p5], ",");
  }

  /** Two different rows export to the same line: a quote inside a field is not escaped. */
  lemma CsvLineNotInjective()
    ensures var a := Relationship("a\",\"b", "c", "x", "", "");
            var b := Relationship("a", "b", "c", "x", "\",\"");
      a != b && CsvLine(a) == CsvLine(b)
  {
    var a := Relationship("a\",\"b", "c", "x", "", "");
    var b := Relationship("a", "b", "c", "x", "\",\"");
    assert a.subject != b.subject by {
      assert |a.subject| != |b.subject|;
    }
    QuoteSplit("a", "b");
    assert "a\",\"b" == "a" + "\",\"" + "b";
    QuoteSplit("", "");
    assert "\",\"" == "" + "\",\"" + "";
    Join5(Quote(a.subject), Quote("c"), Quote("x"), Quote(""), Quote(""));
    Join5(Quote("a"), Quote("b"), Quote("c"), Quote("x"), Quote(b.objectLabel));
    CommaRegroup(Quote("a"), Quote("b"), Quote("c"), Quote("x"), Quote(""));
  }

  /** Where a field boundary falls does not change the joined line. */
  lemma CommaRegroup(qa: string, qb: string, qc: string, qx: string, qe: string)
    ensures (qa + "," + qb) + "," + (qc + "," + (qx + "," + (qe + "," + qe)))
         == qa + "," + (qb + "," + (qc + "," + (qx + "," + (qe + "," + qe))))
  {
  }

  // ---------------------------------------------------------------------------
  // CSV export with quotes doubled (section 2, rule 7 of RFC 4180)
  // ---------------------------------------------------------------------------

  /** Doubles every double quote. */
  function Escape(s: string): (r: string)
    ensures |r| >= |s|
  {
    if s == [] then ""
    else (if s[0] == '"' then "\"\"" else [s[0]]) + Escape(s[1..])
  }

  function QuoteEscaped(s: string): string { "\"" + Escape(s) + "\"" }

  /** An exported row with quotes doubled inside each field. */
  function CsvLineEscaped(r: Relationship): string {
    Join(Map([r.subject, r.pred, r.obj, r.subjectLabel, r.objectLabel], QuoteEscaped), ",")
  }

  /**
   * Reads the rest of a quoted field (after its opening quote): a doubled
   * quote stands for one quote, a single quote closes the field. Gives the
   * field and what follows the closing quote.
   */
  function DecodeQuoted(s: string): (r: Option<(string, string)>)
    ensures r.Some? ==> |r.value.1| < |s|
  {
    if s == [] then None
    else if s[0] == '"' then
      if |s| >= 2 && s[1] == '"' then
        match DecodeQuoted(s[2..])
        case None => None
        case Some((f, rest)) => Some(("\"" + f, rest))
      else Some(("", s[1..]))
    else
      match DecodeQuoted(s[1..])
      case None => None
      case Some((f, rest)) => Some(([s[0]] + f, rest))
  }

  /** Reads a comma-separated list of quoted fields that makes up the whole line. */
  function DecodeFields(s: string): Option<seq<string>>
    decreases |s|
  {
    if s == [] || s[0] != '"' then None
    else match DecodeQuoted(s[1..])
      case None => None
      case Some((f, rest)) =>
        if rest == [] then Some([f])
        else if rest[0] != ',' then None
        else match DecodeFields(rest[1..])
          case None => None
          case Some(fs) => Some([f] + fs)
  }

  lemma {:induction false} DecodeQuotedEscape(f: string, rest: string)
    requires rest == [] || rest[0] != '"'
    ensures DecodeQuoted(Escape(f) + "\"" + rest) == Some((f, rest))
  {
    if f == [] {
      DecodeClosingQuote(rest);
    } else {
      DecodeQuotedEscape(f[1..], rest);
      var tail := Escape(f[1..]) + "\"" + rest;
      EscapeCons(f, rest);
      if f[0] == '"' {
        DecodeDoubledQuote(tail);
      } else {
        DecodePlainChar(f[0], tail);
      }
      assert f == [f[0]] + f[1..];
    }
  }

  /** Escaping a non-empty field escapes its first character, then the rest. */
  lemma EscapeCons(f: string, rest: string)
    requires f != []
    ensures Escape(f) + "\"" + rest == (if f[0] == '"' then "\"\"" else [f[0]]) + (Escape(f[1..]) + "\"" + rest)
  {
  }

  /** A single quote not followed by another closes an empty field. */
  lemma DecodeClosingQuote(rest: string)
    requires rest == [] || rest[0] != '"'
    ensures DecodeQuoted(Escape([]) + "\"" + rest) == Some(("", rest))
  {
    assert Escape([]) + "\"" + rest == "\"" + rest;
  }

  /** A doubled quote reads as one quote of the field. */
  lemma DecodeDoubledQuote(tail: string)
    ensures DecodeQuoted("\"\"" + tail)
         == match DecodeQuoted(tail) case None => None case Some((f, rest)) => Some(("\"" + f, rest))
  {
    assert ("\"\"" + tail)[2..] == tail;
  }

  /** Any other character is kept as it is. */
  lemma DecodePlainChar(c: char, tail: string)
    requires c != '"'
    ensures DecodeQuoted([c] + tail)
         == match DecodeQuoted(tail) case None => None case Some((f, rest)) => Some(([c] + f, rest))
  {
    assert ([c] + tail)[1..] == tail;
  }

  /** Quoted fields with doubled quotes read back as the fields themselves. */
  lemma {:induction false} DecodeEncodedFields(fields: seq<string>)
    requires |fields| >= 1
    ensures DecodeFields(Join(Map(fields, QuoteEscaped), ",")) == Some(fields)
  {
    var parts := Map(fields, QuoteEscaped);
    if |fields| == 1 {
      DecodeFieldsStep(fields[0], "");
      assert Join(parts, ",") == QuoteEscaped(fields[0]) + "";
      assert fields == [fields[0]];
    } else {
      DecodeEncodedFields(fields[1..]);
      assert Map(fields[1..], QuoteEscaped) == parts[1..];
      var rest := Join(parts[1..], ",");
      DecodeFieldsStep(fields[0], "," + rest);
      assert ("," + rest)[1..] == rest;
      assert Join(parts, ",") == QuoteEscaped(fields[0]) + ("," + rest);
      assert fields == [fields[0]] + fields[1..];
    }
  }

  /** A quoted field with doubled quotes is read back whole, and reading goes on after the comma that follows it. */
  lemma DecodeFieldsStep(f: string, tail: string)
    requires tail == [] || tail[0] == ','
    ensures DecodeFields(QuoteEscaped(f) + tail)
         == if tail == [] then Some([f])
            else match DecodeFields(tail[1..]) case None => None case Some(fs) => Some([f] + fs)
  {
    var line := QuoteEscaped(f) + tail;
    DecodeQuotedEscape(f, tail);
    assert line[0] == '"';
    assert line[1..] == Escape(f) + "\"" + tail;
  }

  /** With quotes doubled, different rows always export to different lines. */
  lemma CsvLineEscapedInjective(a: Relationship, b: Relationship)
    ensures CsvLineEscaped(a) == CsvLineEscaped(b) ==> a == b
  {
    DecodeEncodedFields([a.subject, a.pred, a.obj, a.subjectLabel, a.objectLabel]);
    DecodeEncodedFields([b.subject, b.pred, b.obj, b.subjectLabel, b.objectLabel]);
  }

  // ---------------------------------------------------------------------------
  // The editor
  // ---------------------------------------------------------------------------

  /** `RelationshipManager`: the list, the add form and the history. */
  class RelationshipManager {
    var relationships: seq<Relationship>
    var newTriple: Triple
    var showAddForm: bool
    var history: seq<seq<Relationship>>
    var historyIndex: int

    ghost predicate Valid()
      reads this
    {
      HistoryValid(History(history, historyIndex))
    }

    /** A fresh editor; the initial list load from the server is not modelled. */
    constructor ()
      ensures Valid()
      ensures relationships == [] && newTriple == EmptyTriple && !showAddForm
      ensures history == [] && historyIndex == -1
    {
      relationships := [];
      newTriple := EmptyTriple;
      showAddForm := false;
      history := [];
      historyIndex := -1;
    }

    /** `saveToHistory` */
    method SaveToHistory()
      requires Valid()
      modifies this
      ensures Valid()
      ensures History(history, historyIndex) == Save(old(History(history, historyIndex)), relationships)
      ensures relationships == old(relationships) && newTriple == old(newTriple) && showAddForm == old(showAddForm)
    {
      history := history[..historyIndex + 1];
      history := history + [relationships];
      historyIndex := |history| - 1;
      if |history| > MaxHistory {
        history := history[1..];
        historyIndex := historyIndex - 1;
      }
      SaveSpec(old(History(history, historyIndex)), relationships);
    }

    /** `undo`: moves back one snapshot and restores it, when there is one. */
    method Undo()
      requires Valid()
      modifies this
      ensures Valid()
      ensures History(history, historyIndex) == UndoStep(old(History(history, historyIndex)))
      ensures old(historyIndex) > 0 ==> relationships == history[historyIndex]
      ensures old(historyIndex) <= 0 ==> relationships == old(relationships)
      ensures newTriple == old(newTriple) && showAddForm == old(showAddForm)
    {
      if historyIndex > 0 {
        historyIndex := historyIndex - 1;
        relationships := history[historyIndex];
      }
    }

    /** `redo`: moves forward one snapshot and restores it, when there is one. */
    method Redo()
      requires Valid()
      modifies this
      ensures Valid()
      ensures History(history, historyIndex) == RedoStep(old(History(history, historyIndex)))
      ensures old(historyIndex) < |history| - 1 ==> relationships == history[historyIndex]
      ensures old(historyIndex) >= |history| - 1 ==> relationships == old(relationships)
      ensures newTriple == old(newTriple) && showAddForm == old(showAddForm)
    {
      if historyIndex < |history| - 1 {
        historyIndex := historyIndex + 1;
        relationships := history[historyIndex];
      }
    }

    /** `resetForm` */
    method ResetForm()
      modifies this
      ensures newTriple == EmptyTriple && !showAddForm
      ensures relationships == old(relationships) && history == old(history) && historyIndex == old(historyIndex)
    {
      newTriple := EmptyTriple;
      showAddForm := false;
    }

    /**
     * `addTriple`: an incomplete form changes nothing; otherwise the history
     * is saved, and only if the server accepts does the triple go to the
     * front of the list and the form reset.
     */
    method AddTriple(serverOk: bool)
      requires Valid()
      modifies this
      ensures Valid()
      ensures !ValidTriple(old(newTriple)) ==>
        relationships == old(relationships) && newTriple == old(newTriple) && showAddForm == old(showAddForm)
        && history == old(history) && historyIndex == old(historyIndex)
      ensures ValidTriple(old(newTriple)) ==>
        History(history, historyIndex) == Save(old(History(history, historyIndex)), old(relationships))
      ensures ValidTriple(old(newTriple)) && serverOk ==>
        relationships == [Labelled(old(newTriple))] + old(relationships) && newTriple == EmptyTriple && !showAddForm
      ensures ValidTriple(old(newTriple)) && !serverOk ==>
        relationships == old(relationships) && newTriple == old(newTriple) && showAddForm == old(showAddForm)
    {
      if !ValidTriple(newTriple) {
        return;
      }
      SaveToHistory();
      if serverOk {
        relationships := [Labelled(newTriple)] + relationships;
        ResetForm();
      }
    }

    /** `deleteTriple`: after confirmation the history is saved; on success the matching entries go. */
    method DeleteTriple(t: Triple, confirmed: bool, serverOk: bool)
      requires Valid()
      modifies this
      ensures Valid()
      ensures newTriple == old(newTriple) && showAddForm == old(showAddForm)
      ensures !confirmed ==>
        relationships == old(relationships) && history == old(history) && historyIndex == old(historyIndex)
      ensures confirmed ==>
        History(history, historyIndex) == Save(old(History(history, historyIndex)), old(relationships))
      ensures confirmed && serverOk ==> relationships == Without(old(relationships), t)
      ensures !(confirmed && serverOk) ==> relationships == old(relationships)
    {
      if !confirmed {
        return;
      }
      SaveToHistory();
      if serverOk {
        relationships := Without(relationships, t);
      }
    }

    /** `bulkDelete`: an empty selection changes nothing; otherwise as a delete of every selected triple. */
    method BulkDelete(selected: seq<Triple>, confirmed: bool, serverOk: bool)
      requires Valid()
      modifies this
      ensures Valid()
      ensures newTriple == old(newTriple) && showAddForm == old(showAddForm)
      ensures selected == [] || !confirmed ==>
        relationships == old(relationships) && history == old(history) && historyIndex == old(historyIndex)
      ensures selected != [] && confirmed ==>
        History(history, historyIndex) == Save(old(History(history, historyIndex)), old(relationships))
      ensures selected != [] && confirmed && serverOk ==> relationships == WithoutAny(old(relationships), selected)
      ensures !(selected != [] && confirmed && serverOk) ==> relationships == old(relationships)
    {
      if |selected| == 0 || !confirmed {
        return;
      }
      SaveToHistory();
      if serverOk {
        relationships := WithoutAny(relationships, selected);
      }
    }

    /** `destroy`: empties the list and the history. */
    method Destroy()
      modifies this
      ensures Valid()
      ensures history == [] && historyIndex == -1 && relationships == []
      ensures newTriple == old(newTriple) && showAddForm == old(showAddForm)
    {
      history := [];
      historyIndex := -1;
      relationships := [];
    }
  }
}
