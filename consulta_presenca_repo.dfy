/**
 * The result store of `src/consultaPresencaRepo.js`: the column coercions
 * `toBigIntOrNull` / `toVarcharOrNull`, the expansion of one client result into
 * `consulta_presenca` rows (one per offer, or one fallback row), and the
 * all-or-nothing insert behind `saveConsultaPresencaResults`.
 *
 * The module's own `onlyDigits` is `String(value ?? "").replace(/\D/g, "")`,
 * the same function as `Utils.OnlyDigits` on the string form of the value.
 */
module ConsultaPresencaRepo {
  import opened Wrappers
  import opened JsString
  import opened Utils
  import opened Processor

  /** `toBigIntOrNull`: the digits of the value, or null when it has none. */
  function ToBigIntOrNull(value: Option<string>): (r: Option<string>)
    ensures r.None? <==> OnlyDigits(value.GetOr("")) == ""
    ensures r.Some? ==> r.value == OnlyDigits(value.GetOr("")) && AllDigits(r.value) && r.value != ""
  {
    var digits := OnlyDigits(value.GetOr(""));
    if digits == "" then None else Some(digits)
  }

  /** `toVarcharOrNull`: null for null or blank text, otherwise the trimmed text cut to `max` characters. */
  function ToVarcharOrNull(value: Option<string>, max: nat): (r: Option<string>)
    ensures r.None? <==> value.None? || forall i :: 0 <= i < |value.value| ==> IsSpace(value.value[i])
    ensures r.Some? ==>
      var text := Trim(value.value);
      && |r.value| == (if max < |text| then max else |text|)
      && r.value == text[..|r.value|]
  {
    if value.None? then None
    else
      var text := Trim(value.value);
      TrimShape(value.value);
      if text == "" then None else Some(Take(text, max))
  }

  /** A cut text is never longer than its column. */
  lemma ToVarcharOrNullFits(value: Option<string>, max: nat)
    ensures var r := ToVarcharOrNull(value, max); r.Some? ==> |r.value| <= max
  {
  }

  /** The columns every row built from one result shares. */
  datatype RowBase = RowBase(
    cpf: Option<string>, nome: Option<string>, telefone: Option<string>, loginP: Option<string>,
    matricula: Option<string>, numeroInscricaoEmpregador: Option<string>, elegivel: Option<string>,
    valorMargemDisponivel: Option<string>, valorMargemBase: Option<string>, valorTotalDevido: Option<string>,
    dataAdmissao: Option<string>, dataNascimento: Option<string>, nomeMae: Option<string>, sexo: Option<string>,
    tipoConsulta: Option<string>)

  /** The offer columns of a row. */
  datatype RowOffer = RowOffer(
    nomeTipo: Option<string>, prazo: Option<int>, taxaJuros: Option<string>, valorLiberado: Option<string>,
    valorParcela: Option<string>, taxaSeguro: Option<string>, valorSeguro: Option<string>)

  /** One `consulta_presenca` row. */
  datatype PresencaRow = PresencaRow(base: RowBase, offer: RowOffer)

  /** The offer columns of the fallback row: all null. */
  const NoOffer: RowOffer := RowOffer(None, None, None, None, None, None, None)

  /** `value || null` for a text. */
  function OrNull(value: Option<string>): Option<string> {
    if value.Some? && value.value != "" then value else None
  }

  /** `elegivel`: null when the link's flag is null or absent, else `"true"` / `"false"`. */
  function ElegivelColumn(v: Option<Vinculo>): (r: Option<string>)
    ensures r.None? <==> v.None? || v.value.elegivel.None?
    ensures r.Some? ==> r.value == (if v.value.elegivel.value then "true" else "false")
  {
    if v.None? || v.value.elegivel.None? then None
    else ToVarcharOrNull(Some(if v.value.elegivel.value then "true" else "false"), 10)
  }

  /** `tipoConsulta || "Individual"`. */
  function TipoConsultaOrDefault(tipoConsulta: Option<string>): (t: string)
    ensures tipoConsulta.Some? && tipoConsulta.value != "" ==> t == tipoConsulta.value
    ensures tipoConsulta.None? || tipoConsulta.value == "" ==> t == "Individual"
  {
    if tipoConsulta.Some? && tipoConsulta.value != "" then tipoConsulta.value else "Individual"
  }

  function MatriculaOf(v: Option<Vinculo>): Option<string> {
    if v.Some? then v.value.matricula else None
  }

  function EmpregadorOf(v: Option<Vinculo>): Option<string> {
    if v.Some? then v.value.numeroInscricaoEmpregador else None
  }

  /** `base` of `buildRowsFromResult`: each column coerced to its type and width. */
  function BaseRow(result: ClientResult, loginP: Option<string>, tipoConsulta: Option<string>): RowBase {
    var m := result.margemData;
    RowBase(
      ToBigIntOrNull(Some(result.cpf)),
      ToVarcharOrNull(Some(result.nome), 100),
      ToBigIntOrNull(Some(result.telefone)),
      ToVarcharOrNull(loginP, 50),
      ToVarcharOrNull(MatriculaOf(result.vinculo), 255),
      ToVarcharOrNull(EmpregadorOf(result.vinculo), 255),
      ElegivelColumn(result.vinculo),
      ToVarcharOrNull(if m.Some? then m.value.valorMargemDisponivel else None, 20),
      ToVarcharOrNull(if m.Some? then m.value.valorMargemBase else None, 20),
      ToVarcharOrNull(if m.Some? then m.value.valorTotalDevido else None, 20),
      if m.Some? then OrNull(m.value.dataAdmissao) else None,
      if m.Some? then OrNull(m.value.dataNascimento) else None,
      ToVarcharOrNull(if m.Some? then m.value.nomeMae else None, 100),
      ToVarcharOrNull(if m.Some? then m.value.sexo else None, 2),
      ToVarcharOrNull(Some(TipoConsultaOrDefault(tipoConsulta)), 50))
  }

  /** The offer columns of one entry of `tabelas_body`. */
  function OfferRow(t: Offer): RowOffer {
    RowOffer(
      ToVarcharOrNull(t.nome, 150), t.prazo, ToVarcharOrNull(t.taxaJuros, 5),
      ToVarcharOrNull(t.valorLiberado, 10), ToVarcharOrNull(t.valorParcela, 10),
      ToVarcharOrNull(t.taxaSeguro, 10), ToVarcharOrNull(t.valorSeguro, 10))
  }

  /** `Array.isArray(result?.tabelas_body) ? result.tabelas_body : []`. */
  function OffersOf(result: ClientResult): seq<Offer> {
    if result.tabelasBody.Some? && result.tabelasBody.value.Offers? then result.tabelasBody.value.items else []
  }

  /**
   * `buildRowsFromResult`: one row per offer, or a single fallback row with
   * every offer column null when there is no offer array or it is empty.
   */
  function BuildRowsFromResult(result: ClientResult, loginP: Option<string>, tipoConsulta: Option<string>): (rows: seq<PresencaRow>)
    ensures forall i :: 0 <= i < |rows| ==> rows[i].base == BaseRow(result, loginP, tipoConsulta)
    ensures OffersOf(result) == [] ==> |rows| == 1 && rows[0].offer == NoOffer
    ensures OffersOf(result) != [] ==>
      |rows| == |OffersOf(result)| && forall i :: 0 <= i < |rows| ==> rows[i].offer == OfferRow(OffersOf(result)[i])
  {
    var base := BaseRow(result, loginP, tipoConsulta);
    var tabelas := OffersOf(result);
    if tabelas == [] then [PresencaRow(base, NoOffer)]
    else seq(|tabelas|, i requires 0 <= i < |tabelas| => PresencaRow(base, OfferRow(tabelas[i])))
  }

  /** A result with an invalid CPF builds rows without a CPF; the rows of a valid one carry its 11 digits. */
  lemma BuildRowsCpf(result: ClientResult, loginP: Option<string>, tipoConsulta: Option<string>)
    requires result.cpf == "" || (|result.cpf| == 11 && AllDigits(result.cpf))
    ensures var rows := BuildRowsFromResult(result, loginP, tipoConsulta);
      forall i :: 0 <= i < |rows| ==>
        rows[i].base.cpf == (if result.cpf == "" then None else Some(result.cpf))
  {
    if result.cpf != "" {
      OnlyDigitsOfDigits(result.cpf);
    }
  }

  /** The rows of a batch of results, in result order: what the `rows.push(...)` loop collects. */
  function AllRows(results: seq<ClientResult>, loginP: Option<string>, tipoConsulta: Option<string>): seq<PresencaRow> {
    if results == [] then []
    else AllRows(results[..|results| - 1], loginP, tipoConsulta)
         + BuildRowsFromResult(results[|results| - 1], loginP, tipoConsulta)
  }

  /** `rows.filter((r) => r.cpf != null)`. */
  function ValidRows(rows: seq<PresencaRow>): (valid: seq<PresencaRow>)
    ensures |valid| <= |rows|
    ensures forall r :: r in valid <==> r in rows && r.base.cpf.Some?
  {
    if rows == [] then []
    else (if rows[0].base.cpf.Some? then [rows[0]] else []) + ValidRows(rows[1..])
  }

  /** The rows without a CPF: the ones `saveConsultaPresencaResults` counts as skipped. */
  function SkippedRows(rows: seq<PresencaRow>): (skipped: seq<PresencaRow>)
    ensures |skipped| <= |rows|
    ensures forall r :: r in skipped <==> r in rows && r.base.cpf.None?
  {
    if rows == [] then []
    else (if rows[0].base.cpf.None? then [rows[0]] else []) + SkippedRows(rows[1..])
  }

  /** The filter works piece by piece, so it keeps the rows' order and repeats. */
  lemma {:induction false} ValidRowsAppend(a: seq<PresencaRow>, b: seq<PresencaRow>)
    ensures ValidRows(a + b) == ValidRows(a) + ValidRows(b)
  {
    if a == [] {
      assert a + b == b;
    } else {
      assert (a + b)[1..] == a[1..] + b;
      ValidRowsAppend(a[1..], b);
    }
  }

  /** The skipped rows, too, keep their order and repeats. */
  lemma {:induction false} SkippedRowsAppend(a: seq<PresencaRow>, b: seq<PresencaRow>)
    ensures SkippedRows(a + b) == SkippedRows(a) + SkippedRows(b)
  {
    if a == [] {
      assert a + b == b;
    } else {
      assert (a + b)[1..] == a[1..] + b;
      SkippedRowsAppend(a[1..], b);
    }
  }

  /** Every row is either inserted or skipped: the two counts add up to the rows built. */
  lemma {:induction false} ValidAndSkippedPartition(rows: seq<PresencaRow>)
    ensures |ValidRows(rows)| + |SkippedRows(rows)| == |rows|
  {
    if rows != [] {
      ValidAndSkippedPartition(rows[1..]);
    }
  }

  /** Collects the rows of every result, as the `for ... rows.push(...)` loop does. */
  method CollectRows(results: seq<ClientResult>, loginP: Option<string>, tipoConsulta: Option<string>)
    returns (rows: seq<PresencaRow>)
    ensures rows == AllRows(results, loginP, tipoConsulta)
    ensures |rows| >= |results|
  {
    rows := [];
    var i := 0;
    while i < |results|
      invariant 0 <= i <= |results|
      invariant rows == AllRows(results[..i], loginP, tipoConsulta)
      invariant |rows| >= i
    {
      assert results[..i + 1][..i] == results[..i];
      rows := rows + BuildRowsFromResult(results[i], loginP, tipoConsulta);
      i := i + 1;
    }
    assert results[..|results|] == results;
  }

  /** The counts `saveConsultaPresencaResults` reports. */
  datatype SaveCounts = SaveCounts(insertedRows: nat, skippedRows: nat)

  /**
   * What `saveConsultaPresencaResults` does, from the table `before` to the
   * table `after` with result `r`: the rows with a CPF are appended in order
   * and counted, the others only counted; a rejected INSERT changes nothing.
   */
  ghost predicate Saved(results: seq<ClientResult>, loginP: Option<string>, tipoConsulta: Option<string>,
                        failAt: Option<nat>, before: seq<PresencaRow>, after: seq<PresencaRow>,
                        r: Result<SaveCounts, string>) {
    var built := AllRows(results, loginP, tipoConsulta);
    var valid := ValidRows(built);
    && (r.Ok? ==> after == before + valid
                  && r.value.insertedRows == |valid|
                  && r.value.skippedRows == |SkippedRows(built)|
                  && r.value.insertedRows + r.value.skippedRows == |built|)
    && (r.Err? ==> after == before)
    && (r.Err? <==> valid != [] && failAt.Some? && failAt.value < |valid|)
  }

  /** The `consulta_presenca` table, as far as this model writes to it: rows appended in order. */
  class PresencaTable {
    var rows: seq<PresencaRow>

    constructor (initial: seq<PresencaRow>)
      ensures rows == initial
    {
      rows := initial;
    }

    /**
     * `insertConsultaPresencaRows`: nothing for an empty input; otherwise one
     * INSERT per row inside a transaction. `failAt` is the index of the INSERT
     * the store rejects, if any: then the transaction rolls back and nothing
     * is appended.
     */
    method InsertConsultaPresencaRows(newRows: seq<PresencaRow>, failAt: Option<nat>) returns (r: Result<nat, string>)
      modifies this
      ensures newRows == [] ==> r == Ok(0) && rows == old(rows)
      ensures newRows != [] && (failAt.None? || failAt.value >= |newRows|) ==>
        r == Ok(|newRows|) && rows == old(rows) + newRows
      ensures newRows != [] && failAt.Some? && failAt.value < |newRows| ==> r.Err? && rows == old(rows)
    {
      if newRows == [] {
        return Ok(0);
      }
      var snapshot := rows;
      var inserted := 0;
      while inserted < |newRows|
        invariant 0 <= inserted <= |newRows|
        invariant rows == snapshot + newRows[..inserted]
        invariant failAt.Some? ==> inserted <= failAt.value
      {
        if failAt == Some(inserted) {
          rows := snapshot;  // tx.rollback()
          return Err("insert rejected by the store");
        }
        rows := rows + [newRows[inserted]];
        inserted := inserted + 1;
      }
      assert newRows[..inserted] == newRows;
      r := Ok(inserted);
    }

    /**
     * `saveConsultaPresencaResults`: builds every result's rows, skips the ones
     * without a CPF and inserts the rest in one transaction.
     */
    method SaveConsultaPresencaResults(results: seq<ClientResult>, loginP: Option<string>, tipoConsulta: Option<string>,
                                       failAt: Option<nat>)
      returns (r: Result<SaveCounts, string>)
      modifies this
      ensures Saved(results, loginP, tipoConsulta, failAt, old(rows), rows, r)
    {
      var built := CollectRows(results, loginP, tipoConsulta);
      var valid := ValidRows(built);
      ValidAndSkippedPartition(built);
      var skippedRows := |built| - |valid|;
      var inserted := InsertConsultaPresencaRows(valid, failAt);
      if inserted.Err? {
        return Err(inserted.error);
      }
      r := Ok(SaveCounts(inserted.value, skippedRows));
    }
  }
}
