/**
 * The Streamlit tool's contact file path: `generate_vcf_content` walks the
 * spreadsheet rows once, normalises each phone, appends a report entry to
 * one of two caller-supplied lists (successes, failures) and returns the
 * vCard file; `find_initial_column` pre-selects a column for a hint.
 */
module VcfReport {
  import opened Text
  import opened Wrappers
  import opened Seqs
  import opened Normalizer
  import Vcard

  /** A spreadsheet row: column name to cell text. */
  type Row = map<string, string>

  /** The column names the user mapped. */
  datatype Columns = Columns(responsible: string, student: string, phone: string, turma: string)

  /** A value in a failure record's dictionary: cell text, or the 1-based row index. */
  datatype Field = Str(s: string) | RowIndex(n: nat)

  /** A failure record: the error fields, and the whole original row merged over them (see `Dict`). */
  datatype FailureEntry = FailureEntry(
    rowIndex: nat, responsible: string, student: string, turma: string,
    phone: string, reason: string, row: Row)
  {
    /** The dictionary Python builds: `failed_entry | row.to_dict()`. */
    function Dict(): map<string, Field> {
      map[
        IndexKey := RowIndex(rowIndex),
        "Nome do Responsável" := Str(responsible),
        "Nome do Aluno" := Str(student),
        "Nome da Turma" := Str(turma),
        "Telefone" := Str(phone),
        ReasonKey := Str(reason),
        "Explicação_Manual" := Str(ManualHint)]
      + RowFields(row)
    }
  }

  /** A success record. */
  datatype SuccessEntry = SuccessEntry(
    rowIndex: nat, responsible: string, student: string, turma: string,
    originalPhone: string, e164: string, vcfView: string)

  const IndexKey: string := "Índice_Linha_Original"
  const ReasonKey: string := "Motivo_da_Falha"
  const DefaultReason: string := "Nome ou Número Limpo Inválido."
  const ManualHint: string :=
    "O número não pôde ser padronizado. Verifique se ele contém o DDD e o 9º dígito se for celular."

  /** `str(row.get(col, '')).strip()`. */
  function CellText(row: Row, col: string): string {
    Strip(if col in row then row[col] else "")
  }

  /** The vCard display name: "responsible - student", or the responsible alone. */
  function FullName(responsible: string, student: string): string {
    if student != [] then responsible + " - " + student else responsible
  }

  /** The vCard block written for a success record. */
  function CardOf(e: SuccessEntry): seq<string> {
    Vcard.CardLines(FullName(e.responsible, e.student), ";" + e.responsible + ";;;", e.vcfView)
  }

  /** `row.to_dict()`. */
  function RowFields(row: Row): map<string, Field> {
    map k | k in row :: Str(row[k])
  }

  /** What one row contributes: a success record, or a failure record. */
  datatype RowOutcome = Succeeded(success: SuccessEntry) | Failed(failure: FailureEntry)

  /** `failure_reason or "Nome ou Número Limpo Inválido."`. */
  function ReasonOrDefault(reason: Option<string>): string {
    if reason.Some? && reason.value != [] then reason.value else DefaultReason
  }

  /** The classification of one row (1-based `index`); `ClassifyRowSpec` states what it decides. */
  function ClassifyRow(row: Row, index: nat, cols: Columns, config: string): RowOutcome {
    var responsible := CellText(row, cols.responsible);
    var student := CellText(row, cols.student);
    var turma := CellText(row, cols.turma);
    var original := CellText(row, cols.phone);
    var norm := CleanAndStandardizePhone(original, config);
    if responsible != [] && norm.phone.Some? then
      Succeeded(SuccessEntry(index, responsible, student, turma, original,
                             norm.phone.value, FormatPhoneForVcf(norm.phone.value)))
    else
      Failed(FailureEntry(index, responsible, student, turma, original, ReasonOrDefault(norm.reason), row))
  }

  /**
   * A row succeeds exactly when it has a responsible name and its phone
   * normalises; a success carries the E.164 value and its display form, a
   * failure the whole row and the normaliser's reason, or the default reason
   * when there is none. Either record carries the row's index.
   */
  lemma ClassifyRowSpec(row: Row, index: nat, cols: Columns, config: string)
    ensures var r := ClassifyRow(row, index, cols, config);
      var norm := CleanAndStandardizePhone(CellText(row, cols.phone), config);
      && (r.Succeeded? <==> CellText(row, cols.responsible) != [] && norm.phone.Some?)
      && (r.Succeeded? ==>
            r.success.rowIndex == index && r.success.e164 == norm.phone.value &&
            r.success.vcfView == FormatPhoneForVcf(norm.phone.value) &&
            r.success.responsible == CellText(row, cols.responsible))
      && (r.Failed? ==>
            r.failure.rowIndex == index && r.failure.row == row &&
            r.failure.reason == (if norm.reason.Some? then norm.reason.value else DefaultReason))
  {
    var norm := CleanAndStandardizePhone(CellText(row, cols.phone), config);
    if norm.phone.None? {
      assert norm.reason.Some? && norm.reason.value != [];
    }
  }

  /**
   * In a failure record's dictionary every cell of the row is kept, the row's
   * value winning on a clash of keys; the index and the reason survive
   * unless the row has columns of those names.
   */
  lemma FailureDictRowWins(e: FailureEntry)
    ensures forall k :: k in e.row ==> k in e.Dict() && e.Dict()[k] == Str(e.row[k])
    ensures IndexKey !in e.row ==> IndexKey in e.Dict() && e.Dict()[IndexKey] == RowIndex(e.rowIndex)
    ensures ReasonKey !in e.row ==> ReasonKey in e.Dict() && e.Dict()[ReasonKey] == Str(e.reason)
  {
  }

  /** The outcome of every row, row `i` carrying the index `i + 1`. */
  function Outcomes(rows: seq<Row>, cols: Columns, config: string): (outs: seq<RowOutcome>)
    ensures |outs| == |rows|
  {
    MapIndexed(rows, (row: Row, index: nat) => ClassifyRow(row, index, cols, config))
  }

  /** Row `i` is classified with its 1-based index `i + 1`. */
  lemma OutcomeAt(rows: seq<Row>, cols: Columns, config: string, i: nat)
    requires i < |rows|
    ensures Outcomes(rows, cols, config)[i] == ClassifyRow(rows[i], i + 1, cols, config)
  {
    MapIndexedAt(rows, (row: Row, index: nat) => ClassifyRow(row, index, cols, config), i);
  }

  /** The success records, in row order. */
  function Successes(outs: seq<RowOutcome>): seq<SuccessEntry>
    decreases |outs|
  {
    if outs == [] then []
    else
      var last := outs[|outs| - 1];
      Successes(outs[..|outs| - 1]) + (if last.Succeeded? then [last.success] else [])
  }

  /** The failure records, in row order. */
  function Failures(outs: seq<RowOutcome>): seq<FailureEntry>
    decreases |outs|
  {
    if outs == [] then []
    else
      var last := outs[|outs| - 1];
      Failures(outs[..|outs| - 1]) + (if last.Failed? then [last.failure] else [])
  }

  /** One vCard block per success record, in the same order. */
  function Cards(successes: seq<SuccessEntry>): (cards: seq<seq<string>>)
    ensures |cards| == |successes|
    ensures forall i :: 0 <= i < |successes| ==> cards[i] == CardOf(successes[i])
  {
    seq(|successes|, i requires 0 <= i < |successes| => CardOf(successes[i]))
  }

  /** A Python list that the caller passes in and the generator appends to. */
  class ReportList<T> {
    var items: seq<T>

    constructor ()
      ensures items == []
    {
      items := [];
    }

    method Append(x: T)
      modifies this
      ensures items == old(items) + [x]
    {
      items := items + [x];
    }
  }

  /**
   * `generate_vcf_content`: one pass over the rows; each row's record is
   * appended to `successful` or to `failed`, and the returned text holds one
   * vCard block per success.
   */
  method GenerateVcfContent(rows: seq<Row>, cols: Columns, config: string,
                            failed: ReportList<FailureEntry>, successful: ReportList<SuccessEntry>)
    returns (vcf: string)
    requires failed as object != successful as object
    modifies failed, successful
    ensures var outs := Outcomes(rows, cols, config);
      successful.items == old(successful.items) + Successes(outs) &&
      failed.items == old(failed.items) + Failures(outs) &&
      vcf == Vcard.Render(Cards(Successes(outs)))
  {
    ghost var successful0, failed0 := successful.items, failed.items;
    ghost var outs: seq<RowOutcome> := [];
    var vcfBlocks: seq<string> := [];
    for i := 0 to |rows|
      invariant outs == Outcomes(rows[..i], cols, config)
      invariant successful.items == successful0 + Successes(outs)
      invariant failed.items == failed0 + Failures(outs)
      invariant vcfBlocks == Vcard.Blocks(Cards(Successes(outs)))
    {
      var row := rows[i];
      var responsible := CellText(row, cols.responsible);
      var student := CellText(row, cols.student);
      var turma := CellText(row, cols.turma);
      var original := CellText(row, cols.phone);
      var fullName := FullName(responsible, student);
      var norm := CleanAndStandardizePhone(original, config);
      ghost var o := ClassifyRow(row, i + 1, cols, config);
      OutcomesSnoc(rows, i, cols, config);
      if responsible != [] && norm.phone.Some? {
        var formatted := FormatPhoneForVcf(norm.phone.value);
        var block := Join(Vcard.CardLines(fullName, ";" + responsible + ";;;", formatted), "\n");
        var entry := SuccessEntry(i + 1, responsible, student, turma, original, norm.phone.value, formatted);
        assert o == Succeeded(entry);
        SnocSucceeded(outs, o);
        BlocksAppend(Successes(outs), entry);
        AppendAssoc(successful0, Successes(outs), [entry]);
        vcfBlocks := vcfBlocks + [block];
        successful.Append(entry);
      } else {
        var entry := FailureEntry(i + 1, responsible, student, turma, original, ReasonOrDefault(norm.reason), row);
        assert o == Failed(entry);
        SnocFailed(outs, o);
        AppendAssoc(failed0, Failures(outs), [entry]);
        failed.Append(entry);
      }
      outs := outs + [o];
    }
    assert rows[..|rows|] == rows;
    vcf := Join(vcfBlocks, "\n");
  }

  lemma AppendAssoc<T>(a: seq<T>, b: seq<T>, c: seq<T>)
    ensures (a + b) + c == a + (b + c)
  {
  }

  lemma OutcomesSnoc(rows: seq<Row>, i: nat, cols: Columns, config: string)
    requires i < |rows|
    ensures Outcomes(rows[..i + 1], cols, config)
         == Outcomes(rows[..i], cols, config) + [ClassifyRow(rows[i], i + 1, cols, config)]
  {
    MapIndexedSnoc(rows, (row: Row, index: nat) => ClassifyRow(row, index, cols, config), i);
  }

  lemma SnocSucceeded(outs: seq<RowOutcome>, o: RowOutcome)
    requires o.Succeeded?
    ensures Successes(outs + [o]) == Successes(outs) + [o.success]
    ensures Failures(outs + [o]) == Failures(outs)
  {
    assert (outs + [o])[..|outs|] == outs;
  }

  lemma SnocFailed(outs: seq<RowOutcome>, o: RowOutcome)
    requires o.Failed?
    ensures Successes(outs + [o]) == Successes(outs)
    ensures Failures(outs + [o]) == Failures(outs) + [o.failure]
  {
    assert (outs + [o])[..|outs|] == outs;
  }

  lemma BlocksAppend(s: seq<SuccessEntry>, e: SuccessEntry)
    ensures Vcard.Blocks(Cards(s + [e])) == Vcard.Blocks(Cards(s)) + [Join(CardOf(e), "\n")]
  {
  }

  /** Every row lands in exactly one of the two lists, and one vCard is written per success. */
  lemma {:induction false} PartitionSizes(outs: seq<RowOutcome>)
    ensures |Successes(outs)| + |Failures(outs)| == |outs|
    ensures |Cards(Successes(outs))| == |Successes(outs)|
    decreases |outs|
  {
    if outs != [] { PartitionSizes(outs[..|outs| - 1]); }
  }

  /** The records of row `k` are in the list its classification selects. */
  lemma {:induction false} RowReported(outs: seq<RowOutcome>, k: nat)
    requires k < |outs|
    ensures outs[k].Succeeded? ==> outs[k].success in Successes(outs)
    ensures outs[k].Failed? ==> outs[k].failure in Failures(outs)
    decreases |outs|
  {
    if k < |outs| - 1 {
      RowReported(outs[..|outs| - 1], k);
    }
  }

  /** The 1-based row index a record carries. */
  function RowIndexOf(o: RowOutcome): nat {
    match o
    case Succeeded(e) => e.rowIndex
    case Failed(e) => e.rowIndex
  }

  /** The outcome of row `k` carries the index `k + 1`. */
  lemma OutcomesIndexed(rows: seq<Row>, cols: Columns, config: string)
    ensures var outs := Outcomes(rows, cols, config);
      forall k :: 0 <= k < |outs| ==> RowIndexOf(outs[k]) == k + 1
  {
    var outs := Outcomes(rows, cols, config);
    forall k | 0 <= k < |outs| ensures RowIndexOf(outs[k]) == k + 1 {
      OutcomeAt(rows, cols, config, k);
      ClassifyRowSpec(rows[k], k + 1, cols, config);
    }
  }

  /** Success records keep row order: their indices strictly increase and lie in `1..|outs|`. */
  lemma {:induction false} SuccessIndicesIncrease(outs: seq<RowOutcome>)
    requires forall k :: 0 <= k < |outs| ==> RowIndexOf(outs[k]) == k + 1
    ensures forall a :: 0 <= a < |Successes(outs)| ==> 1 <= Successes(outs)[a].rowIndex <= |outs|
    ensures forall a, b :: 0 <= a < b < |Successes(outs)| ==> Successes(outs)[a].rowIndex < Successes(outs)[b].rowIndex
    decreases |outs|
  {
    if outs != [] {
      var prev := outs[..|outs| - 1];
      forall k | 0 <= k < |prev| ensures RowIndexOf(prev[k]) == k + 1 {
        assert prev[k] == outs[k];
      }
      SuccessIndicesIncrease(prev);
      var last := outs[|outs| - 1];
      assert RowIndexOf(last) == |outs|;
      var sp := Successes(prev);
      var s := Successes(outs);
      assert s == sp + (if last.Succeeded? then [last.success] else []);
      forall a | 0 <= a < |s| ensures 1 <= s[a].rowIndex <= |outs| {
        if a < |sp| {
          assert s[a] == sp[a];
        } else {
          assert s[a] == last.success;
        }
      }
      forall a, b | 0 <= a < b < |s| ensures s[a].rowIndex < s[b].rowIndex {
        assert s[a] == sp[a];
        if b < |sp| {
          assert s[b] == sp[b];
        } else {
          assert s[b] == last.success;
        }
      }
    }
  }

  /**
   * The returned file reads back as exactly the success records' vCards, one
   * per success and in order, when no card field holds a newline.
   */
  lemma VcfFileHasOneCardPerSuccess(rows: seq<Row>, cols: Columns, config: string)
    requires Vcard.NoNewlines(Cards(Successes(Outcomes(rows, cols, config))))
    ensures var s := Successes(Outcomes(rows, cols, config));
      var parsed := Vcard.ParseCards(Vcard.Render(Cards(s)));
      |parsed| == |s| && forall a :: 0 <= a < |s| ==> parsed[a] == CardOf(s[a])
  {
    Vcard.RenderRoundTrip(Cards(Successes(Outcomes(rows, cols, config))));
  }

  /** Normalised form used to compare a column name with a hint: `strip().lower()`. */
  function Normalized(s: string): string { Lower(Strip(s)) }

  /**
   * `find_initial_column(columns, hint)`: the hint itself when it is a column,
   * otherwise the first column equal to it once trimmed and lower-cased,
   * otherwise the first column; `None` only for an empty column list.
   */
  function FindInitialColumn(columns: seq<string>, hint: string): (r: Option<string>)
    ensures r.None? <==> columns == []
    ensures r.Some? ==> r.value in columns
    ensures hint in columns ==> r == Some(hint)
  {
    if hint in columns then Some(hint)
    else
      match FirstIndex(columns, (c: string) => Normalized(c) == Normalized(hint))
      case Some(k) => Some(columns[k])
      case None => if columns == [] then None else Some(columns[0])
  }

  /** Without an exact hit, the first column that matches after normalising wins; the first column is the fallback. */
  lemma FindInitialColumnOrder(columns: seq<string>, hint: string)
    requires hint !in columns && columns != []
    ensures var r := FindInitialColumn(columns, hint);
      (exists k :: 0 <= k < |columns| && Normalized(columns[k]) == Normalized(hint)) ==>
        (exists k :: 0 <= k < |columns| && r == Some(columns[k]) && Normalized(columns[k]) == Normalized(hint)
           && forall j :: 0 <= j < k ==> Normalized(columns[j]) != Normalized(hint))
    ensures var r := FindInitialColumn(columns, hint);
      (forall k :: 0 <= k < |columns| ==> Normalized(columns[k]) != Normalized(hint)) ==> r == Some(columns[0])
  {
    var p := (c: string) => Normalized(c) == Normalized(hint);
    var m := FirstIndex(columns, p);
    if m.Some? {
      assert p(columns[m.value]);
    }
  }
}
