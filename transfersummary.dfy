/** The summary shown after a transfer: an ordered list of label/value rows
    built from the transfer record, with two optional rows and defaults for
    blank fields, and the block-explorer link of the transaction. Date
    formatting (`toLocaleDateString`) is a parameter. */
module TransferSummary {
  import opened Optional

  /** `TransferSummaryData`; the two optional properties may be absent. */
  datatype Data = Data(
    codigoLote: string,
    destinatario: string,
    fecha: string,
    cantidad: string,
    representante: string,
    emisor: string,
    txHash: string,
    numeroLote: Option<string>,
    nombreMedicamento: Option<string>)

  datatype Row = Row(title: string, value: string)

  /** An optional text is truthy when present and not empty. */
  predicate Truthy(o: Option<string>) {
    o.Some? && o.value != ""
  }

  /** `value || fallback` on a string. */
  function OrDefault(value: string, fallback: string): (r: string)
    ensures value != "" ==> r == value
    ensures value == "" ==> r == fallback
  {
    if value != "" then value else fallback
  }

  /** The "Fecha" value: the formatted date, or "No registrada" for an
      empty date. */
  function FormattedDate(fecha: string, formatDate: string -> string): (r: string)
    ensures fecha == "" ==> r == "No registrada"
    ensures fecha != "" ==> r == formatDate(fecha)
  {
    if fecha != "" then formatDate(fecha) else "No registrada"
  }

  /** `summaryItems`: eight slots, the first and third empty (`null`)
      unless their field is truthy. */
  function SummaryItems(d: Data, formatDate: string -> string): (items: seq<Option<Row>>)
    ensures |items| == 8
    ensures items[0].Some? <==> Truthy(d.numeroLote)
    ensures items[2].Some? <==> Truthy(d.nombreMedicamento)
    ensures forall i :: 0 <= i < 8 && i != 0 && i != 2 ==> items[i].Some?
  {
    [ if Truthy(d.numeroLote) then Some(Row("Número de lote", d.numeroLote.value)) else None,
      Some(Row("Código de lote", d.codigoLote)),
      if Truthy(d.nombreMedicamento) then Some(Row("Medicamento", d.nombreMedicamento.value)) else None,
      Some(Row("Destinatario", d.destinatario)),
      Some(Row("Representante", OrDefault(d.representante, "No indicado"))),
      Some(Row("Fecha", FormattedDate(d.fecha, formatDate))),
      Some(Row("Cantidad", OrDefault(d.cantidad, "No indicada"))),
      Some(Row("Cuenta emisora", OrDefault(d.emisor, "No conectada"))) ]
  }

  /** `filter(Boolean)`: the rows that are there, in their order. */
  function Present(items: seq<Option<Row>>): (rows: seq<Row>)
    ensures |rows| <= |items|
  {
    if items == [] then []
    else Slot(items[0]) + Present(items[1..])
  }

  /** Filtering a concatenation filters each part. */
  lemma {:induction false} PresentAppend(a: seq<Option<Row>>, b: seq<Option<Row>>)
    ensures Present(a + b) == Present(a) + Present(b)
  {
    if a != [] {
      assert (a + b)[1..] == a[1..] + b;
      PresentAppend(a[1..], b);
    } else {
      assert a + b == b;
    }
  }

  /** The filter keeps exactly the present rows: a row survives iff it was
      in one of the slots. */
  lemma {:induction false} PresentMembers(items: seq<Option<Row>>, r: Row)
    ensures r in Present(items) <==> Some(r) in items
  {
    if items != [] {
      PresentMembers(items[1..], r);
      assert items == [items[0]] + items[1..];
    }
  }

  /** What one slot contributes to the filtered list. */
  function Slot(o: Option<Row>): seq<Row> {
    if o.Some? then [o.value] else []
  }

  /** The rows the modal lists. */
  function SummaryRows(d: Data, formatDate: string -> string): (rows: seq<Row>)
    ensures |rows| <= 8
  {
    Present(SummaryItems(d, formatDate))
  }

  /** The rows in their fixed order: "Número de lote" when the lot number is
      truthy, "Código de lote", "Medicamento" when the medicine name is
      truthy, then the five mandatory rows with their defaults. */
  lemma SummaryLayout(d: Data, formatDate: string -> string)
    ensures SummaryRows(d, formatDate) ==
              (if Truthy(d.numeroLote) then [Row("Número de lote", d.numeroLote.value)] else [])
              + [Row("Código de lote", d.codigoLote)]
              + (if Truthy(d.nombreMedicamento) then [Row("Medicamento", d.nombreMedicamento.value)] else [])
              + [Row("Destinatario", d.destinatario),
                 Row("Representante", OrDefault(d.representante, "No indicado")),
                 Row("Fecha", FormattedDate(d.fecha, formatDate)),
                 Row("Cantidad", OrDefault(d.cantidad, "No indicada")),
                 Row("Cuenta emisora", OrDefault(d.emisor, "No conectada"))]
  {
    var items := SummaryItems(d, formatDate);
    PresentOfEight(items[0], items[1].value, items[2], items[3].value, items[4].value,
                   items[5].value, items[6].value, items[7].value);
  }

  /** The filter over the modal's shape of slots: optional, present,
      optional, then five present. */
  lemma PresentOfEight(a: Option<Row>, b: Row, c: Option<Row>, r3: Row, r4: Row, r5: Row, r6: Row, r7: Row)
    ensures Present([a, Some(b), c, Some(r3), Some(r4), Some(r5), Some(r6), Some(r7)]) ==
              Slot(a) + [b] + Slot(c) + [r3, r4, r5, r6, r7]
  {
    var tail := [Some(r3), Some(r4), Some(r5), Some(r6), Some(r7)];
    assert Present(tail) == [r3, r4, r5, r6, r7] by {
      PresentAllSome(tail, [r3, r4, r5, r6, r7]);
    }
    PresentCons(c, tail);
    PresentCons(Some(b), [c] + tail);
    PresentCons(a, [Some(b)] + ([c] + tail));
    assert [a] + ([Some(b)] + ([c] + tail)) == [a, Some(b), c, Some(r3), Some(r4), Some(r5), Some(r6), Some(r7)];
  }

  /** Filtering a slot in front of others. */
  lemma PresentCons(slot: Option<Row>, rest: seq<Option<Row>>)
    ensures Present([slot] + rest) == Slot(slot) + Present(rest)
  {
    assert ([slot] + rest)[1..] == rest;
  }

  /** Slots that are all present give their rows unchanged. */
  lemma {:induction false} PresentAllSome(items: seq<Option<Row>>, rows: seq<Row>)
    requires |items| == |rows| && forall i :: 0 <= i < |items| ==> items[i] == Some(rows[i])
    ensures Present(items) == rows
  {
    if items != [] {
      PresentAllSome(items[1..], rows[1..]);
      assert rows == [rows[0]] + rows[1..];
    }
  }

  /** Six to eight rows: six mandatory ones plus one per truthy optional
      field. */
  lemma SummaryRowCount(d: Data, formatDate: string -> string)
    ensures |SummaryRows(d, formatDate)| ==
              6 + (if Truthy(d.numeroLote) then 1 else 0) + (if Truthy(d.nombreMedicamento) then 1 else 0)
    ensures 6 <= |SummaryRows(d, formatDate)| <= 8
  {
    SummaryLayout(d, formatDate);
  }

  /** The lot-number row is listed iff the lot number is truthy, and the
      medicine row iff the medicine name is. */
  lemma OptionalRows(d: Data, formatDate: string -> string)
    ensures (exists v :: Row("Número de lote", v) in SummaryRows(d, formatDate)) <==> Truthy(d.numeroLote)
    ensures (exists v :: Row("Medicamento", v) in SummaryRows(d, formatDate)) <==> Truthy(d.nombreMedicamento)
  {
    SummaryLayout(d, formatDate);
    if Truthy(d.numeroLote) {
      assert Row("Número de lote", d.numeroLote.value) in SummaryRows(d, formatDate);
    }
    if Truthy(d.nombreMedicamento) {
      assert Row("Medicamento", d.nombreMedicamento.value) in SummaryRows(d, formatDate);
    }
  }

  const ExplorerPrefix: string := "https://sepolia.etherscan.io/tx/"

  /** The "Ver transacción" link: the Sepolia explorer page of the hash. */
  function ExplorerLink(txHash: string): (url: string)
    ensures |url| == |ExplorerPrefix| + |txHash|
    ensures url[..|ExplorerPrefix|] == ExplorerPrefix && url[|ExplorerPrefix|..] == txHash
  {
    ExplorerPrefix + txHash
  }

  /** Distinct hashes give distinct links. */
  lemma ExplorerLinkInjective(h1: string, h2: string)
    requires ExplorerLink(h1) == ExplorerLink(h2)
    ensures h1 == h2
  {
    assert h1 == ExplorerLink(h1)[|ExplorerPrefix|..];
  }
}
