/**
 * The client workflow of `src/processor.js`: input-file header checks, the
 * mapping of spreadsheet rows to clients, the `processClient` chain of partner
 * API steps (login, consent term, optional headless acceptance, employment
 * links, margin, offer tables), the result flattening and the batch loop.
 *
 * Every partner reply is an input: `Responses` holds what each step's
 * `postWithRetry` resolved to, and what the headless acceptance returned.
 */
module Processor {
  import opened Wrappers
  import opened JsString
  import opened Utils
  import opened PresencaClient

  // ---------------------------------------------------------------------------
  // Input files

  /** One input line: raw CPF, name and phone. */
  datatype ClientRow = ClientRow(cpf: string, nome: string, telefone: string)

  const ByteOrderMark: char := '\U{FEFF}'

  /** The columns an input file must have. */
  const CpfColumn: string := "CPF"
  const NomeColumn: string := "NOME"
  const TelefoneColumn: string := "TELEFONE"
  const RequiredColumns: seq<string> := [CpfColumn, NomeColumn, TelefoneColumn]

  /** `.replace(/^\uFEFF/, "")`: one leading byte-order mark dropped. */
  function DropBom(value: string): string {
    if value != [] && value[0] == ByteOrderMark then value[1..] else value
  }

  /** `normalizeHeader`: one leading byte-order mark dropped, trimmed, upper-cased. */
  function NormalizeHeader(value: string): string {
    ToUpper(Trim(DropBom(value)))
  }

  /** A normalised header has no white space at either end and is no longer than its input. */
  lemma NormalizeHeaderShape(value: string)
    ensures var h := NormalizeHeader(value);
      && |h| <= |value|
      && (h == [] || (!IsSpace(h[0]) && !IsSpace(h[|h| - 1])))
  {
    var t := Trim(DropBom(value));
    TrimShape(DropBom(value));
    if t != [] {
      UpperCharKeepsSpace(t[0]);
      UpperCharKeepsSpace(t[|t| - 1]);
    }
  }

  /** A normalised header normalises to itself. */
  lemma NormalizeHeaderIdempotent(value: string)
    ensures NormalizeHeader(NormalizeHeader(value)) == NormalizeHeader(value)
  {
    var h := NormalizeHeader(value);
    NormalizeHeaderShape(value);
    assert DropBom(h) == h by {
      if h != [] {
        assert !IsSpace(h[0]);
      }
    }
    assert Trim(h) == h by {
      assert TrimStart(h) == h;
      assert TrimEnd(h) == h;
    }
    assert ToUpper(h) == h by {
      forall i | 0 <= i < |h|
        ensures ToUpper(h)[i] == h[i]
      {
      }
    }
  }

  function NormalizedHeaders(headers: seq<string>): set<string> {
    set i | 0 <= i < |headers| :: NormalizeHeader(headers[i])
  }

  /** The required columns absent from `headers` after normalisation, in their fixed order. */
  function MissingColumns(headers: seq<string>): (missing: seq<string>)
    ensures forall c :: c in missing <==> c in RequiredColumns && c !in NormalizedHeaders(headers)
    ensures |missing| <= |RequiredColumns|
    ensures InOrderOf(missing, RequiredColumns)
  {
    AbsentMembers(RequiredColumns, NormalizedHeaders(headers));
    AbsentKeepsOrder(RequiredColumns, NormalizedHeaders(headers));
    Absent(RequiredColumns, NormalizedHeaders(headers))
  }

  /** The elements of `cols` that are not in `present`, in the order of `cols`. */
  function Absent(cols: seq<string>, present: set<string>): (r: seq<string>)
    ensures |r| <= |cols|
  {
    if cols == [] then []
    else
      var rest := Absent(cols[1..], present);
      if cols[0] in present then rest else [cols[0]] + rest
  }

  /** `Absent` keeps exactly the elements of `cols` outside `present`. */
  lemma {:induction false} AbsentMembers(cols: seq<string>, present: set<string>)
    ensures forall c :: c in Absent(cols, present) <==> c in cols && c !in present
  {
    if cols != [] {
      AbsentMembers(cols[1..], present);
      assert cols == [cols[0]] + cols[1..];
    }
  }

  /** `a` occurs in `cols` before some occurrence of `b`. */
  ghost predicate Before(a: string, b: string, cols: seq<string>) {
    exists p, q :: 0 <= p < q < |cols| && a == cols[p] && b == cols[q]
  }

  /** Any two elements of `r` appear in `cols` in the same order. */
  ghost predicate InOrderOf(r: seq<string>, cols: seq<string>) {
    forall i, j :: 0 <= i < j < |r| ==> Before(r[i], r[j], cols)
  }

  /** `Absent` keeps the order of `cols`: any two of its elements appear in `cols` in the same order. */
  lemma {:induction false} AbsentKeepsOrder(cols: seq<string>, present: set<string>)
    ensures InOrderOf(Absent(cols, present), cols)
  {
    if cols != [] {
      var tail := cols[1..];
      var rest := Absent(tail, present);
      var r := Absent(cols, present);
      AbsentKeepsOrder(tail, present);
      if cols[0] in present {
        assert r == rest;
        forall i, j | 0 <= i < j < |r|
          ensures Before(r[i], r[j], cols)
        {
          BeforeInTail(rest[i], rest[j], cols);
        }
      } else {
        assert r == [cols[0]] + rest;
        AbsentMembers(tail, present);
        forall i, j | 0 <= i < j < |r|
          ensures Before(r[i], r[j], cols)
        {
          if i == 0 {
            HeadBefore(cols, r[j]);
          } else {
            assert r[i] == rest[i - 1] && r[j] == rest[j - 1];
            BeforeInTail(rest[i - 1], rest[j - 1], cols);
          }
        }
      }
    }
  }

  /** An order between two elements of the tail of `cols` holds in `cols`. */
  lemma BeforeInTail(a: string, b: string, cols: seq<string>)
    requires cols != [] && Before(a, b, cols[1..])
    ensures Before(a, b, cols)
  {
    var p, q :| 0 <= p < q < |cols[1..]| && a == cols[1..][p] && b == cols[1..][q];
    assert a == cols[p + 1] && b == cols[q + 1];
  }

  /** The head of `cols` comes before any element of its tail. */
  lemma HeadBefore(cols: seq<string>, b: string)
    requires cols != [] && b in cols[1..]
    ensures Before(cols[0], b, cols)
  {
    var q :| 0 <= q < |cols[1..]| && cols[1..][q] == b;
    assert b == cols[q + 1];
  }

  /** The message prefix; `REQUIRED_FILE_COLUMNS.join(", ")` is "CPF, NOME, TELEFONE". */
  const MissingColumnsPrefix: string := "Arquivo invalido. As colunas obrigatorias sao: CPF, NOME, TELEFONE. Faltando: "

  /** `assertRequiredColumns`: `None` when the headers pass, otherwise the error message. */
  function AssertRequiredColumns(headers: seq<string>): (err: Option<string>)
    ensures err.None? <==> forall c :: c in RequiredColumns ==> c in NormalizedHeaders(headers)
    ensures err.Some? ==> err.value == MissingColumnsPrefix + Join(MissingColumns(headers), ", ")
  {
    var missing := MissingColumns(headers);
    if missing == [] then None
    else
      assert missing[0] in missing;
      Some(MissingColumnsPrefix + Join(missing, ", "))
  }

  /** A parsed record: its (key, value) pairs in `Object.keys` order. */
  type RawRecord = seq<(string, string)>

  /**
   * The value stored under normalised header `key` once every key of `row`
   * has been normalised in order: the last matching key wins; "" when none matches.
   */
  function HeaderValue(row: RawRecord, key: string): string {
    if row == [] then ""
    else if NormalizeHeader(row[|row| - 1].0) == key then row[|row| - 1].1
    else HeaderValue(row[..|row| - 1], key)
  }

  lemma {:induction false} HeaderValueIsLastMatch(row: RawRecord, key: string, i: nat)
    requires i < |row| && NormalizeHeader(row[i].0) == key
    requires forall j :: i < j < |row| ==> NormalizeHeader(row[j].0) != key
    ensures HeaderValue(row, key) == row[i].1
    decreases |row|
  {
    if i < |row| - 1 {
      var front := row[..|row| - 1];
      assert forall j :: i < j < |front| ==> front[j] == row[j];
      HeaderValueIsLastMatch(front, key, i);
    }
  }

  function Lookup(m: map<string, string>, key: string): string {
    if key in m then m[key] else ""
  }

  /** The `normalized` object once every key of `row` has been stored under its normalised header. */
  function NormalizedRecord(row: RawRecord): map<string, string> {
    if row == [] then map[]
    else NormalizedRecord(row[..|row| - 1])[NormalizeHeader(row[|row| - 1].0) := row[|row| - 1].1]
  }

  /** Reading a normalised column gives the value of the last raw key that normalises to it. */
  lemma {:induction false} NormalizedRecordLookup(row: RawRecord, key: string)
    ensures Lookup(NormalizedRecord(row), key) == HeaderValue(row, key)
    decreases |row|
  {
    if row != [] {
      NormalizedRecordLookup(row[..|row| - 1], key);
    }
  }

  /** The `normalized` object of `mapToClientRows`, filled key by key. */
  method NormalizeKeys(row: RawRecord) returns (m: map<string, string>)
    ensures forall key :: Lookup(m, key) == HeaderValue(row, key)
  {
    m := map[];
    var i := 0;
    while i < |row|
      invariant 0 <= i <= |row|
      invariant m == NormalizedRecord(row[..i])
    {
      assert row[..i + 1][..i] == row[..i];
      m := m[NormalizeHeader(row[i].0) := row[i].1];
      i := i + 1;
    }
    assert row[..|row|] == row;
    forall key
      ensures Lookup(m, key) == HeaderValue(row, key)
    {
      NormalizedRecordLookup(row, key);
    }
  }

  /** `f` applied to each of the first `n` elements together with its position. */
  function MapIndexed<A, B>(xs: seq<A>, f: (A, nat) -> B, n: nat): seq<B>
    requires n <= |xs|
  {
    if n == 0 then [] else MapIndexed(xs, f, n - 1) + [f(xs[n - 1], n - 1)]
  }

  /** The i-th element of the map is `f` of the i-th input at position i. */
  lemma {:induction false} MapIndexedAt<A, B>(xs: seq<A>, f: (A, nat) -> B, n: nat)
    requires n <= |xs|
    ensures |MapIndexed(xs, f, n)| == n
    ensures forall i :: 0 <= i < n ==> MapIndexed(xs, f, n)[i] == f(xs[i], i)
  {
    if n > 0 {
      MapIndexedAt(xs, f, n - 1);
    }
  }

  /** The client a raw record denotes: each field normalised from its normalised column. */
  function ClientRowOf(raw: RawRecord): ClientRow {
    ClientRow(
      NormalizeCpf(HeaderValue(raw, CpfColumn)),
      NormalizeNome(HeaderValue(raw, NomeColumn)),
      NormalizeTelefone(HeaderValue(raw, TelefoneColumn)))
  }

  /** `mapToClientRows`: the same rows in the same order, each field normalised from its column. */
  method MapToClientRows(rawRows: seq<RawRecord>) returns (rows: seq<ClientRow>)
    ensures |rows| == |rawRows|
    ensures forall i :: 0 <= i < |rows| ==> rows[i] == ClientRowOf(rawRows[i])
  {
    rows := [];
    var i := 0;
    while i < |rawRows|
      invariant 0 <= i <= |rawRows| && |rows| == i
      invariant forall k :: 0 <= k < i ==> rows[k] == ClientRowOf(rawRows[k])
    {
      var row := MapClientRow(rawRows[i]);
      rows := rows + [row];
      i := i + 1;
    }
  }

  /** The callback of `mapToClientRows` for one record: normalise the keys, then read and normalise each field. */
  method MapClientRow(raw: RawRecord) returns (row: ClientRow)
    ensures row == ClientRowOf(raw)
  {
    var normalized := NormalizeKeys(raw);
    row := ClientRow(
      NormalizeCpf(Lookup(normalized, CpfColumn)),
      NormalizeNome(Lookup(normalized, NomeColumn)),
      NormalizeTelefone(Lookup(normalized, TelefoneColumn)));
  }

  const FormatErrorText: string :=
    "Formato de arquivo invalido. Envie .csv (separado por ;) ou .xlsx com colunas CPF, NOME e TELEFONE."
  const EmptyFileText: string := "Arquivo vazio ou sem registros validos."

  /**
   * `parseInputRowsFromUpload`: chooses the parser from the lower-cased file
   * name and refuses an empty result. `csvRows` and `xlsxRows` are what the
   * CSV and spreadsheet parsers produce for the uploaded bytes.
   */
  function ParseInputRowsFromUpload(
    originalName: string,
    csvRows: Result<seq<ClientRow>, string>,
    xlsxRows: Result<seq<ClientRow>, string>): (r: Result<seq<ClientRow>, string>)
    ensures var name := ToLower(originalName);
      && (!EndsWith(name, ".csv") && !EndsWith(name, ".xlsx") ==> r == Err(FormatErrorText))
      && (EndsWith(name, ".csv") && csvRows.Err? ==> r == csvRows)
      && (EndsWith(name, ".csv") && csvRows.Ok? ==>
            r == if csvRows.value == [] then Err(EmptyFileText) else csvRows)
      && (!EndsWith(name, ".csv") && EndsWith(name, ".xlsx") && xlsxRows.Err? ==> r == xlsxRows)
      && (!EndsWith(name, ".csv") && EndsWith(name, ".xlsx") && xlsxRows.Ok? ==>
            r == if xlsxRows.value == [] then Err(EmptyFileText) else xlsxRows)
    ensures r.Ok? ==> r.value != []
  {
    var name := ToLower(originalName);
    var isCsv := EndsWith(name, ".csv");
    var isXlsx := EndsWith(name, ".xlsx");
    if !isCsv && !isXlsx then Err(FormatErrorText)
    else
      var parsed := if isCsv then csvRows else xlsxRows;
      match parsed
      case Err(e) => Err(e)
      case Ok(rows) => if rows == [] then Err(EmptyFileText) else Ok(rows)
  }

  // ---------------------------------------------------------------------------
  // Partner replies

  datatype LoginData = LoginData(token: Option<string>)
  datatype TermoData = TermoData(shortUrl: Option<string>, autorizacaoId: Option<string>)
  datatype Vinculo = Vinculo(elegivel: Option<bool>, matricula: Option<string>, numeroInscricaoEmpregador: Option<string>)
  datatype VinculosData = VinculosData(id: Option<seq<Vinculo>>)
  /** The margin fields the model reads, each as the text `String(value)` gives. */
  datatype MargemData = MargemData(
    valorMargemDisponivel: Option<string>, valorMargemBase: Option<string>, valorTotalDevido: Option<string>,
    dataAdmissao: Option<string>, dataNascimento: Option<string>, nomeMae: Option<string>, sexo: Option<string>)
  /** One offer of the tables step; `tipoCredito` is `tipoCredito.name`. */
  datatype Offer = Offer(
    id: Option<string>, nome: Option<string>, prazo: Option<int>, taxaJuros: Option<string>,
    valorLiberado: Option<string>, tipoCredito: Option<string>, valorParcela: Option<string>,
    taxaSeguro: Option<string>, valorSeguro: Option<string>)
  /** The tables reply body: an array of offers, or any other value with its `errors` array if it has one. */
  datatype TabelasPayload = Offers(items: seq<Offer>) | NotOffers(errors: Option<seq<string>>)

  datatype AcceptOutcome = AcceptReturned(calls: seq<Call>) | AcceptThrew(error: string)

  datatype Responses = Responses(
    login: Reply<LoginData>,
    termo: Reply<TermoData>,
    accept: AcceptOutcome,
    vinculos: Reply<VinculosData>,
    margem: Reply<Option<MargemData>>,
    tabelas: Reply<TabelasPayload>)

  /** JavaScript truthiness of an optional string. */
  predicate Truthy(s: Option<string>) {
    s.Some? && s.value != ""
  }

  predicate LoginOk(r: Reply<LoginData>) {
    r.status == 200 && r.body.Data? && Truthy(r.body.d.token)
  }

  predicate TermoOk(r: Reply<TermoData>) {
    r.status == 200 && r.body.Data? && Truthy(r.body.d.shortUrl)
  }

  function AutorizacaoId(r: Reply<TermoData>): Option<string> {
    if r.body.Data? then r.body.d.autorizacaoId else None
  }

  predicate AcceptOk(a: AcceptOutcome, termo: Reply<TermoData>) {
    a.AcceptReturned? && TermoAccepted(a.calls, AutorizacaoId(termo))
  }

  /** `Array.isArray(data?.id) ? data.id : []`. */
  function VinculoList(r: Reply<VinculosData>): seq<Vinculo> {
    if r.body.Data? && r.body.d.id.Some? then r.body.d.id.value else []
  }

  /** The index of the first link with `elegivel === true`. */
  function FirstEligible(vs: seq<Vinculo>): (k: Option<nat>)
    ensures k.Some? ==> k.value < |vs| && vs[k.value].elegivel == Some(true)
    ensures k.Some? ==> forall j :: 0 <= j < k.value ==> vs[j].elegivel != Some(true)
    ensures k.None? ==> forall j :: 0 <= j < |vs| ==> vs[j].elegivel != Some(true)
  {
    if vs == [] then None
    else if vs[0].elegivel == Some(true) then Some(0)
    else match FirstEligible(vs[1..])
      case Some(k) => Some(k + 1)
      case None => None
  }

  /** `vinculos.find((v) => v.elegivel === true) || vinculos[0]`. */
  function ChooseVinculo(vs: seq<Vinculo>): (c: Option<Vinculo>)
    ensures c.None? <==> vs == []
    ensures c.Some? ==> c.value in vs
    ensures c.Some? && c.value.elegivel != Some(true) ==>
      c.value == vs[0] && forall j :: 0 <= j < |vs| ==> vs[j].elegivel != Some(true)
    ensures (exists j :: 0 <= j < |vs| && vs[j].elegivel == Some(true)) ==> c.Some? && c.value.elegivel == Some(true)
  {
    match FirstEligible(vs)
    case Some(k) => Some(vs[k])
    case None => if vs == [] then None else Some(vs[0])
  }

  predicate Usable(v: Option<Vinculo>) {
    v.Some? && Truthy(v.value.matricula) && Truthy(v.value.numeroInscricaoEmpregador)
  }

  predicate MargemOk(r: Reply<Option<MargemData>>) {
    r.status == 200 && r.body.Data? && r.body.d.Some?
  }

  /** `margemResp.data || null`, read through its margin fields. */
  function MargemDataOf(r: Reply<Option<MargemData>>): Option<MargemData> {
    if r.body.Data? then r.body.d else None
  }

  /** `tabResp.data`; the communication-error payload is an object without `errors`. */
  function TabelasBodyOf(r: Reply<TabelasPayload>): TabelasPayload {
    if r.body.Data? then r.body.d else NotOffers(None)
  }

  /** The message for a tables reply other than 200. */
  function TabelasFailureMessage(r: Reply<TabelasPayload>): (m: string)
    ensures var b := TabelasBodyOf(r);
      b.NotOffers? && b.errors.Some? && Join(b.errors.value, " | ") != "" ==>
        m == "Falha consultar-tabelas: " + Join(b.errors.value, " | ")
    ensures var b := TabelasBodyOf(r);
      !(b.NotOffers? && b.errors.Some? && Join(b.errors.value, " | ") != "") ==>
        m == "Falha consultar-tabelas: status " + IntToString(r.status)
  {
    var b := TabelasBodyOf(r);
    var errs := if b.NotOffers? && b.errors.Some? then Join(b.errors.value, " | ") else "";
    if errs != "" then "Falha consultar-tabelas: " + errs
    else "Falha consultar-tabelas: status " + IntToString(r.status)
  }

  // ---------------------------------------------------------------------------
  // processClient

  datatype Step = Login | Termo | Accept | Vinculos | Margem | Tabelas
  datatype LogEntry = LogEntry(step: Step, status: int, ok: bool)
  datatype FinalStatus = OK | ERRO

  datatype ClientResult = ClientResult(
    cpf: string, nome: string, telefone: string,
    finalStatus: FinalStatus, finalMessage: string,
    termoStatus: Option<int>, vinculosStatus: Option<int>, margemStatus: Option<int>, tabelasStatus: Option<int>,
    vinculo: Option<Vinculo>, margemData: Option<MargemData>, tabelasBody: Option<TabelasPayload>,
    logs: seq<LogEntry>)

  /** The steps in the order `processClient` attempts them. */
  function StepOrder(autoAccept: bool): seq<Step> {
    if autoAccept then [Login, Termo, Accept, Vinculos, Margem, Tabelas] else [Login, Termo, Vinculos, Margem, Tabelas]
  }

  predicate FollowsOrder(logs: seq<LogEntry>, order: seq<Step>) {
    |logs| <= |order| && forall i :: 0 <= i < |logs| ==> logs[i].step == order[i]
  }

  /** Every step of the chain succeeds: an independent statement of when the result is OK. */
  predicate AllStepsPass(cpfInput: string, autoAccept: bool, resp: Responses) {
    NormalizeCpf(cpfInput) != "" && StepsPass(autoAccept, resp)
  }

  /** Every partner step succeeds. */
  predicate StepsPass(autoAccept: bool, resp: Responses) {
    && LoginOk(resp.login)
    && TermoOk(resp.termo)
    && (autoAccept ==> AcceptOk(resp.accept, resp.termo))
    && resp.vinculos.status == 200
    && Usable(ChooseVinculo(VinculoList(resp.vinculos)))
    && MargemOk(resp.margem)
    && resp.tabelas.status == 200
  }

  /** The final messages of `processClient`. */
  const LoginFailText := "Falha login"
  const TermoFailText := "Falha gerar termo"
  const AcceptFailText := "Falha aceite headless"
  const NoEligibleText := "Sem vinculo elegivel"
  const VinculosFailText := "Falha consultar-vinculos"
  const MargemFailText := "Falha consultar-margem"
  const InvalidCpfText := "CPF invalido"
  const CompleteText := "Fluxo completo OK"

  /** The final message of a chain whose last logged step is `last`. */
  function StopMessage(last: LogEntry, tabelas: Reply<TabelasPayload>): string {
    match last.step
    case Login => LoginFailText
    case Termo => TermoFailText
    case Accept => AcceptFailText
    case Vinculos => if last.ok then NoEligibleText else VinculosFailText
    case Margem => MargemFailText
    case Tabelas => TabelasFailureMessage(tabelas)
  }

  function AcceptLog(a: AcceptOutcome, termo: Reply<TermoData>): LogEntry {
    match a
    case AcceptReturned(_) => if AcceptOk(a, termo) then LogEntry(Accept, 200, true) else LogEntry(Accept, 400, false)
    case AcceptThrew(_) => LogEntry(Accept, 500, false)
  }

  /** The entries each step logs when it is reached, in step order. */
  function FullLog(autoAccept: bool, resp: Responses): (full: seq<LogEntry>)
    ensures |full| == |StepOrder(autoAccept)|
    ensures forall i :: 0 <= i < |full| ==> full[i].step == StepOrder(autoAccept)[i]
  {
    var login := LogEntry(Login, resp.login.status, resp.login.status == 200);
    var termo := LogEntry(Termo, resp.termo.status, resp.termo.status == 200);
    var vinc := LogEntry(Vinculos, resp.vinculos.status, resp.vinculos.status == 200);
    var margem := LogEntry(Margem, resp.margem.status, resp.margem.status == 200);
    var tab := LogEntry(Tabelas, resp.tabelas.status, resp.tabelas.status == 200);
    if autoAccept then [login, termo, AcceptLog(resp.accept, resp.termo), vinc, margem, tab]
    else [login, termo, vinc, margem, tab]
  }

  /**
   * The partner steps of `processClient` once the CPF has been validated: the
   * chain stops at the first failing step with that step's message, and only
   * a 200 reply from the tables step makes the result OK.
   */
  function RunSteps(cpf: string, nome: string, telefone: string, autoAccept: bool, resp: Responses): (r: ClientResult)
    ensures r.cpf == cpf && r.nome == nome && r.telefone == telefone
    ensures r.logs != [] && r.logs[0] == LogEntry(Login, resp.login.status, resp.login.status == 200)
    ensures r.finalStatus == OK <==> StepsPass(autoAccept, resp)
    ensures r.finalStatus == OK <==> r.tabelasStatus == Some(200)
  {
    var start := ClientResult(cpf, nome, telefone, ERRO, "", None, None, None, None, None, None, None, []);
    var full := FullLog(autoAccept, resp);
    var skip := if autoAccept then 0 else 1;  // the log has no acceptance entry without headless acceptance
    if !LoginOk(resp.login) then start.(finalMessage := LoginFailText, logs := full[..1])
    else
      var termoDone := start.(termoStatus := Some(resp.termo.status), logs := full[..2]);
      if !TermoOk(resp.termo) then termoDone.(finalMessage := TermoFailText)
      else if autoAccept && !AcceptOk(resp.accept, resp.termo) then
        termoDone.(finalMessage := AcceptFailText, logs := full[..3])
      else
        var vincDone := termoDone.(vinculosStatus := Some(resp.vinculos.status), logs := full[..4 - skip]);
        if resp.vinculos.status != 200 then vincDone.(finalMessage := VinculosFailText)
        else
          var vinculo := ChooseVinculo(VinculoList(resp.vinculos));
          var chosen := vincDone.(vinculo := vinculo);
          if !Usable(vinculo) then chosen.(finalMessage := NoEligibleText)
          else
            var margemDone := chosen.(margemStatus := Some(resp.margem.status),
                                      margemData := MargemDataOf(resp.margem), logs := full[..5 - skip]);
            if !MargemOk(resp.margem) then margemDone.(finalMessage := MargemFailText)
            else
              var tabDone := margemDone.(tabelasStatus := Some(resp.tabelas.status),
                                         tabelasBody := Some(TabelasBodyOf(resp.tabelas)), logs := full[..6 - skip]);
              if resp.tabelas.status == 200 then tabDone.(finalStatus := OK, finalMessage := CompleteText)
              else tabDone.(finalMessage := TabelasFailureMessage(resp.tabelas))
  }

  /** The log lists the steps reached, in chain order; a successful chain reached them all. */
  lemma RunStepsLogOrder(cpf: string, nome: string, telefone: string, autoAccept: bool, resp: Responses)
    ensures var r := RunSteps(cpf, nome, telefone, autoAccept, resp);
      && FollowsOrder(r.logs, StepOrder(autoAccept))
      && (r.finalStatus == OK ==> |r.logs| == |StepOrder(autoAccept)|)
  {
    var vinculo := ChooseVinculo(VinculoList(resp.vinculos));
    if !LoginOk(resp.login) || !TermoOk(resp.termo) {
    } else if autoAccept && !AcceptOk(resp.accept, resp.termo) {
    } else if resp.vinculos.status != 200 {
    } else if !Usable(vinculo) {
    } else if !MargemOk(resp.margem) {
    } else {
    }
  }

  /** Every step logged before the last one succeeded: the chain only moves on after a success. */
  lemma RunStepsLogOk(cpf: string, nome: string, telefone: string, autoAccept: bool, resp: Responses)
    ensures var r := RunSteps(cpf, nome, telefone, autoAccept, resp);
      forall i :: 0 <= i < |r.logs| - 1 ==> r.logs[i].ok
  {
    var vinculo := ChooseVinculo(VinculoList(resp.vinculos));
    if !LoginOk(resp.login) || !TermoOk(resp.termo) {
    } else if autoAccept && !AcceptOk(resp.accept, resp.termo) {
    } else if resp.vinculos.status != 200 {
    } else if !Usable(vinculo) {
    } else if !MargemOk(resp.margem) {
    } else {
    }
  }

  /** A successful chain says "Fluxo completo OK". */
  lemma RunStepsOkMessage(cpf: string, nome: string, telefone: string, autoAccept: bool, resp: Responses)
    ensures var r := RunSteps(cpf, nome, telefone, autoAccept, resp);
      r.finalStatus == OK ==> r.finalMessage == CompleteText
  {
  }

  /** A failed chain carries the message of the step it stopped at. */
  lemma RunStepsMessage(cpf: string, nome: string, telefone: string, autoAccept: bool, resp: Responses)
    ensures var r := RunSteps(cpf, nome, telefone, autoAccept, resp);
      r.finalStatus == ERRO ==> r.finalMessage == StopMessage(r.logs[|r.logs| - 1], resp.tabelas)
  {
    var vinculo := ChooseVinculo(VinculoList(resp.vinculos));
    if !LoginOk(resp.login) || !TermoOk(resp.termo) {
    } else if autoAccept && !AcceptOk(resp.accept, resp.termo) {
    } else if resp.vinculos.status != 200 {
    } else if !Usable(vinculo) {
    } else if !MargemOk(resp.margem) {
    } else {
    }
  }


  /** Once the links step answered 200 the chosen link is recorded; once the tables step ran, its body and the margin are. */
  lemma RunStepsRecords(cpf: string, nome: string, telefone: string, autoAccept: bool, resp: Responses)
    ensures var r := RunSteps(cpf, nome, telefone, autoAccept, resp);
      && (r.vinculosStatus == Some(200) ==> r.vinculo == ChooseVinculo(VinculoList(resp.vinculos)))
      && (r.tabelasStatus.Some? ==> r.tabelasBody == Some(TabelasBodyOf(resp.tabelas)) && r.margemData.Some?)
  {
  }

  /**
   * `processClient`: an invalid CPF fails before any step is attempted; otherwise
   * the partner steps run. `fallbackTelefone` stands for the randomly generated
   * phone used when the input phone does not normalise.
   */
  function ProcessClient(input: ClientRow, autoAccept: bool, fallbackTelefone: string, resp: Responses): (r: ClientResult)
    ensures r.cpf == NormalizeCpf(input.cpf) && r.nome == NormalizeNome(input.nome)
    ensures var t := NormalizeTelefone(input.telefone); r.telefone == if t == "" then fallbackTelefone else t
    ensures r.cpf == "" ==> r.finalStatus == ERRO && r.finalMessage == InvalidCpfText && r.logs == []
    ensures r.cpf != "" ==> r.logs != [] && r.logs[0].step == Login
    ensures r.finalStatus == OK <==> AllStepsPass(input.cpf, autoAccept, resp)
    ensures r.finalStatus == OK <==> r.tabelasStatus == Some(200)
  {
    var cpf := NormalizeCpf(input.cpf);
    var phone := NormalizeTelefone(input.telefone);
    var telefone := if phone == "" then fallbackTelefone else phone;
    if cpf == "" then
      ClientResult(cpf, NormalizeNome(input.nome), telefone, ERRO, InvalidCpfText, None, None, None, None, None, None, None, [])
    else RunSteps(cpf, NormalizeNome(input.nome), telefone, autoAccept, resp)
  }

  /**
   * `processCsvBatch` without sampling: every row goes through `processClient`
   * in order. `respFor(i)` and `phoneFor(i)` belong to the i-th row.
   */
  method ProcessCsvBatch(rows: seq<ClientRow>, autoAccept: bool, phoneFor: nat -> string, respFor: nat -> Responses)
    returns (results: seq<ClientResult>)
    ensures |results| == |rows|
    ensures forall i :: 0 <= i < |rows| ==> results[i] == ProcessClient(rows[i], autoAccept, phoneFor(i), respFor(i))
  {
    var each := (row: ClientRow, k: nat) => ProcessClient(row, autoAccept, phoneFor(k), respFor(k));
    results := [];
    var i := 0;
    while i < |rows|
      invariant 0 <= i <= |rows|
      invariant results == MapIndexed(rows, each, i)
    {
      results := results + [each(rows[i], i)];
      i := i + 1;
    }
    MapIndexedAt(rows, each, |rows|);
  }

  // ---------------------------------------------------------------------------
  // flattenApi5

  datatype FlatBase = FlatBase(
    cpf: string, nome: string, telefone: string, finalStatus: FinalStatus, finalMessage: string,
    termoStatus: Option<int>, vinculosStatus: Option<int>, margemStatus: Option<int>, tabelasStatus: Option<int>)

  /** One summary row: the base columns, with the offer columns when the row comes from an offer. */
  datatype FlatRow = FlatRow(base: FlatBase, offer: Option<Offer>)

  function BaseOf(r: ClientResult): FlatBase {
    FlatBase(r.cpf, r.nome, r.telefone, r.finalStatus, r.finalMessage,
             r.termoStatus, r.vinculosStatus, r.margemStatus, r.tabelasStatus)
  }

  /** `flattenApi5`: one row per offer of a 200 tables reply, otherwise one base row. */
  function FlattenApi5(r: ClientResult): (rows: seq<FlatRow>)
    ensures forall i :: 0 <= i < |rows| ==> rows[i].base == BaseOf(r)
    ensures r.tabelasStatus == Some(200) && r.tabelasBody.Some? && r.tabelasBody.value.Offers? ==>
      var items := r.tabelasBody.value.items;
      |rows| == |items| && forall i :: 0 <= i < |items| ==> rows[i].offer == Some(items[i])
    ensures !(r.tabelasStatus == Some(200) && r.tabelasBody.Some? && r.tabelasBody.value.Offers?) ==>
      |rows| == 1 && rows[0].offer.None?
  {
    if r.tabelasStatus == Some(200) && r.tabelasBody.Some? && r.tabelasBody.value.Offers? then
      var items := r.tabelasBody.value.items;
      seq(|items|, i requires 0 <= i < |items| => FlatRow(BaseOf(r), Some(items[i])))
    else [FlatRow(BaseOf(r), None)]
  }
}
