/**
 * Banco Comafi statements.
 *
 * A Comafi statement holds several accounts. Each account section starts with a header
 * naming the account kind and currency, followed within five lines by the account number.
 * Its movements are listed after "DETALLE DE MOVIMIENTOS", one dated line per movement
 * with the amount and often the balance after it, and a description that may continue on
 * the following undated lines. Amounts are Argentine literals, negative when a minus sign
 * trails them. A movement is a credit or a debit by its keywords, and otherwise by whether
 * the printed balance rose or fell. Balances missing from the listing are filled in from
 * the last known one.
 */
module Comafi {
  import opened Text
  import opened Optional
  import opened Amounts
  import Ledger

  // ---------------------------------------------------------------------------
  // Amounts: `1.234,56` and `1.234,56-`

  /** An Argentine amount, negative when a minus sign trails it. */
  function ParseArNumber(s: string): Option<int> {
    if s != [] && s[|s| - 1] == '-' then Negate(ParseArPlain(s[..|s| - 1])) else ParseArPlain(s)
  }

  lemma TrailingMinus(t: string)
    ensures ParseArNumber(t + "-") == Negate(ParseArPlain(t))
  {
    assert (t + "-")[..|t|] == t;
  }

  lemma NoTrailingMinus(t: string)
    requires t != [] && IsDigit(t[|t| - 1])
    ensures ParseArNumber(t) == ParseArPlain(t)
  {
  }

  /**
   * Reading a printed amount gives the amount back: a credit balance is printed as is, a
   * debit balance with a trailing minus.
   */
  lemma ArNumberRoundTrip(m: nat)
    ensures ParseArNumber(FormatAr(m)) == Some(m)
    ensures ParseArNumber(FormatAr(m) + "-") == Some(-(m as int))
  {
    ArRoundTrip(m);
    ArFormatEndsInDigit(m);
    NoTrailingMinus(FormatAr(m));
    TrailingMinus(FormatAr(m));
  }

  /** What an amount matched in a line looks like: an Argentine literal, perhaps with a trailing minus. */
  predicate IsMonto(t: string) {
    IsArLiteral(t) || (t != [] && t[|t| - 1] == '-' && IsArLiteral(t[..|t| - 1]))
  }

  /** A matched amount always reads as a number: non-negative unless a minus sign trails it. */
  lemma MontoParses(t: string)
    requires IsMonto(t)
    ensures ParseArNumber(t).Some?
    ensures t[|t| - 1] != '-' ==> ParseArNumber(t).value >= 0
    ensures t[|t| - 1] == '-' ==> ParseArNumber(t).value <= 0
  {
    if t[|t| - 1] == '-' {
      ArLiteralValue(t[..|t| - 1]);
    } else {
      ArLiteralValue(t);
    }
  }

  /** The value of a matched amount, in cents. */
  function MontoValue(t: string): int
    requires IsMonto(t)
  {
    MontoParses(t);
    ParseArNumber(t).value
  }

  /**
   * The amount pattern `(?<!\d)\d{1,3}(?:\.\d{3})*,\d{2}-?(?!\d)` tried at position `p`.
   * No digit may precede the match. The trailing minus is taken when no digit follows it;
   * otherwise the match ends before it, and no digit may follow the decimals.
   */
  function MontoAt(s: string, p: nat): (r: Option<nat>)
    ensures r.Some? ==> p < r.value <= |s| && IsMonto(s[p..(r.value)])
    ensures r.Some? ==> p == 0 || !IsDigit(s[p - 1])
    ensures r.Some? ==> r.value == |s| || !IsDigit(s[r.value])
  {
    if 0 < p <= |s| && IsDigit(s[p - 1]) then None
    else match GroupedAt(s, p, '.', ',')
      case None => None
      case Some(e) =>
        if e < |s| && s[e] == '-' && (e + 1 == |s| || !IsDigit(s[e + 1])) then
          assert s[p..e + 1][..e - p] == s[p..e];
          Some(e + 1)
        else if e < |s| && IsDigit(s[e]) then None
        else Some(e)
  }

  /** Every amount in a line, left to right (the source's `RE_MONTO.findall`). */
  function Montos(s: string): (r: seq<string>)
    ensures forall k :: 0 <= k < |r| ==> IsMonto(r[k])
  {
    var at := (q: nat) => MontoAt(s, q);
    assert IsMatcher(s, at);
    var sp := Spans(s, at, 0);
    assert forall k :: 0 <= k < |sp| ==> IsMonto(s[sp[k].0..sp[k].1]) by {
      forall k | 0 <= k < |sp|
        ensures IsMonto(s[sp[k].0..sp[k].1])
      {
        assert at(sp[k].0) == Some(sp[k].1);
      }
    }
    Texts(s, sp)
  }

  /** A text without a digit, a comma-and-two-digits or anything amount-like holds no amount. */
  lemma NoDigitsNoMontos(s: string)
    requires forall i :: 0 <= i < |s| ==> !IsDigit(s[i])
    ensures Montos(s) == []
  {
    var at := (q: nat) => MontoAt(s, q);
    assert forall q: nat :: at(q).None?;
    NoMatchNoSpans(s, at, 0);
  }

  // ---------------------------------------------------------------------------
  // Line shapes

  /** The dated line `^(\d{2}/\d{2}/\d{2})\s+(.+)`: the date and the rest of the line. */
  function FechaMatch(line: string): (r: Option<(string, string)>)
    ensures r.Some? ==> 8 < |line| && |r.value.0| == 8 && DateAt(r.value.0, 0, '/', 2) && r.value.0 == line[..8]
    ensures r.Some? ==> r.value.1 != [] && EndsWith(line, r.value.1)
  {
    if DateAt(line, 0, '/', 2) && 8 < |line| && IsSpace(line[8]) then
      var e := SpaceEnd(line, 8);
      // `\s+` gives back its last character when nothing else is left for `.+`.
      var rest := if e < |line| then e else if e - 8 >= 2 then e - 1 else |line|;
      if rest < |line| then Some((line[..8], line[rest..])) else None
    else None
  }

  /** The kinds of account a section header names, and the titles they are shown with. */
  const AccountKinds: seq<string> :=
    ["CUENTA CORRIENTE BANCARIA", "CUENTA CORRIENTE ESPECIAL", "CAJA DE AHORROS", "CUENTA DE LA SEGURIDAD SOCIAL"]
  const KindTitles: seq<string> :=
    ["Cuenta Corriente Bancaria", "Cuenta Corriente Especial", "Caja De Ahorros", "Cuenta De La Seguridad Social"]

  datatype Currency = Pesos | Dolares

  /** `\s+EN\s+(PESOS|DOLARES|DÓLARES)` at position `q` of an upper-cased line. */
  function CurrencyAt(u: string, q: nat): Option<Currency> {
    if q < |u| && IsSpace(u[q]) then
      var a := SpaceEnd(u, q);
      if OccursAt(u, "EN", a) && a + 2 < |u| && IsSpace(u[a + 2]) then
        var b := SpaceEnd(u, a + 2);
        if OccursAt(u, "PESOS", b) then Some(Pesos)
        else if OccursAt(u, "DOLARES", b) || OccursAt(u, "DÓLARES", b) then Some(Dolares)
        else None
      else None
    else None
  }

  /** The first account kind `k` whose header (kind, `EN`, currency) starts at `p`. */
  function HeaderAt(u: string, p: nat, k: nat): (r: Option<(nat, Currency)>)
    requires k <= |AccountKinds|
    decreases |AccountKinds| - k
    ensures r.Some? ==> r.value.0 < |AccountKinds| && OccursAt(u, AccountKinds[r.value.0], p)
  {
    if k == |AccountKinds| then None
    else if OccursAt(u, AccountKinds[k], p) && CurrencyAt(u, p + |AccountKinds[k]|).Some? then
      Some((k, CurrencyAt(u, p + |AccountKinds[k]|).value))
    else HeaderAt(u, p, k + 1)
  }

  function HeaderFrom(u: string, p: nat): (r: Option<(nat, Currency)>)
    decreases |u| - p
    ensures r.Some? ==> r.value.0 < |AccountKinds|
  {
    if p >= |u| then None
    else match HeaderAt(u, p, 0)
      case Some(h) => Some(h)
      case None => HeaderFrom(u, p + 1)
  }

  /** The account section header, matched without regard to case: the kind's index and the currency. */
  function HeaderSearch(line: string): (r: Option<(nat, Currency)>)
    ensures r.Some? ==> r.value.0 < |AccountKinds|
  {
    HeaderFrom(Upper(line), 0)
  }

  /** The header is recognised whatever the case it is written in. */
  lemma HeaderIgnoresCase(line: string)
    ensures HeaderSearch(Lower(line)) == HeaderSearch(line)
    ensures HeaderSearch(Upper(line)) == HeaderSearch(line)
  {
    UpperIgnoresCase(line);
  }

  /** An account number `\d{4}-\d{5}-\d` at position `p`. */
  predicate AccountNumberAt(s: string, p: nat) {
    DigitsAt(s, p, 4) && CharAt(s, p + 4, '-') && DigitsAt(s, p + 5, 5) && CharAt(s, p + 10, '-')
    && DigitsAt(s, p + 11, 1)
  }

  /** `NRO\.?\s*` and an account number at `p` of an upper-cased line: where the number starts. */
  function NroAt(u: string, p: nat): (r: Option<nat>)
    ensures r.Some? ==> AccountNumberAt(u, r.value)
  {
    if OccursAt(u, "NRO", p) then
      var q := if CharAt(u, p + 3, '.') then p + 4 else p + 3;
      var a := SpaceEnd(u, q);
      if AccountNumberAt(u, a) then Some(a) else None
    else None
  }

  /** `NÚMERO\s+` and an account number at `p` of an upper-cased line: where the number starts. */
  function NumeroAt(u: string, p: nat): (r: Option<nat>)
    ensures r.Some? ==> AccountNumberAt(u, r.value)
  {
    if OccursAt(u, "NÚMERO", p) && p + 6 < |u| && IsSpace(u[p + 6]) then
      var a := SpaceEnd(u, p + 6);
      if AccountNumberAt(u, a) then Some(a) else None
    else None
  }

  /** The leftmost match of a number pattern from `p`, as the number's start. */
  function NumberFrom(u: string, p: nat, numero: bool): (r: Option<nat>)
    decreases |u| - p
    ensures r.Some? ==> AccountNumberAt(u, r.value)
  {
    if p >= |u| then None
    else match (if numero then NumeroAt(u, p) else NroAt(u, p))
      case Some(a) => Some(a)
      case None => NumberFrom(u, p + 1, numero)
  }

  /** The account number a line announces: after `NRO`, or failing that after `Número`. */
  function NroSearch(line: string): (r: Option<string>)
    ensures r.Some? ==> |r.value| == 12 && AccountNumberAt(r.value, 0)
  {
    var u := Upper(line);
    var m := NumberFrom(u, 0, false);
    var a := if m.Some? then m else NumberFrom(u, 0, true);
    if a.Some? then
      NumberUnchanged(line, a.value);
      Some(line[a.value..a.value + 12])
    else None
  }

  /** An account number found in the upper-cased line is the same text in the line itself. */
  lemma NumberUnchanged(line: string, a: nat)
    requires AccountNumberAt(Upper(line), a)
    ensures a + 12 <= |line| && AccountNumberAt(line[a..a + 12], 0)
  {
    var u := Upper(line);
    forall i | a <= i < a + 12
      ensures line[i] == u[i]
    {
      assert IsDigit(u[i]) || u[i] == '-';
    }
  }

  /** The account number in the five lines after a header, if any of them has one. */
  function FindNro(lines: seq<string>, j: nat, stop: nat): (r: Option<string>)
    decreases stop - j
    ensures r.Some? ==> |r.value| == 12
  {
    if j >= stop || j >= |lines| then None
    else match NroSearch(lines[j])
      case Some(n) => Some(n)
      case None => FindNro(lines, j + 1, stop)
  }

  /** Where a run of `[\d.,]` characters starting at `p` ends. */
  function NumberCharsEnd(s: string, p: nat): (e: nat)
    requires p <= |s|
    decreases |s| - p
    ensures p <= e <= |s|
  {
    if p < |s| && (IsDigit(s[p]) || s[p] == '.' || s[p] == ',') then NumberCharsEnd(s, p + 1) else p
  }

  /** `Saldo al:\s*\d{2}/\d{2}/\d{4}\s+([\d.,]+)` at `p` of the upper-cased line `u`: the group's span. */
  function SaldoAlAt(u: string, p: nat): (r: Option<(nat, nat)>)
    ensures r.Some? ==> r.value.0 < r.value.1 <= |u|
  {
    if OccursAt(u, "SALDO AL:", p) then
      var a := SpaceEnd(u, p + 9);
      if DateAt(u, a, '/', 4) && a + 10 < |u| && IsSpace(u[a + 10]) then
        var c := SpaceEnd(u, a + 10);
        var d := NumberCharsEnd(u, c);
        if c < d then Some((c, d)) else None
      else None
    else None
  }

  function SaldoAlFrom(u: string, p: nat): (r: Option<(nat, nat)>)
    decreases |u| - p
    ensures r.Some? ==> r.value.0 < r.value.1 <= |u|
  {
    if p >= |u| then None
    else match SaldoAlAt(u, p)
      case Some(g) => Some(g)
      case None => SaldoAlFrom(u, p + 1)
  }

  /** The closing-balance literal of a `Saldo al: dd/mm/yyyy <amount>` line. */
  function SaldoAlSearch(line: string): (r: Option<string>)
    ensures r.Some? ==> r.value != []
  {
    match SaldoAlFrom(Upper(line), 0)
    case Some(g) => Some(line[g.0..g.1])
    case None => None
  }

  /** The column header `Fecha Conceptos Referencias`, in any case. */
  predicate IsColumnHeader(line: string) {
    var u := Upper(line);
    StartsWith(u, "FECHA") && 5 < |u| && IsSpace(u[5])
    && var a := SpaceEnd(u, 5);
    OccursAt(u, "CONCEPTOS", a) && a + 9 < |u| && IsSpace(u[a + 9])
    && OccursAt(u, "REFERENCIAS", SpaceEnd(u, a + 9))
  }

  /** The page header repeated inside a listing: `^\d+\.\d+\s*-\s*\d+/\d+`. */
  predicate IsPageHeader(line: string) {
    var a := DigitEnd(line, 0);
    0 < a && CharAt(line, a, '.')
    && var b := DigitEnd(line, a + 1);
    a + 1 < b
    && var c := SpaceEnd(line, b);
    CharAt(line, c, '-')
    && var d := SpaceEnd(line, c + 1);
    var e := DigitEnd(line, d);
    d < e && CharAt(line, e, '/') && DigitsAt(line, e + 1, 1)
  }

  /** `^Hoja:\s*\d+/\d+`, in any case. */
  predicate IsSheetMark(u: string) {
    StartsWith(u, "HOJA:")
    && var a := SpaceEnd(u, 5);
    var e := DigitEnd(u, a);
    a < e && CharAt(u, e, '/') && DigitsAt(u, e + 1, 1)
  }

  /** `^Página\s+\d+`, in any case. */
  predicate IsPageMark(u: string) {
    StartsWith(u, "PÁGINA") && 6 < |u| && IsSpace(u[6]) && DigitsAt(u, SpaceEnd(u, 6), 1)
  }

  /** The lines skipped inside a listing: carried-over totals, page furniture and barcodes. */
  predicate IsListingNoise(line: string) {
    var u := Upper(line);
    StartsWith(u, "TRANSPORTE") || StartsWith(u, "SIN MOVIMIENTOS") || IsPageHeader(line)
    || IsSheetMark(u) || StartsWith(line, "<") || (|line| >= 10 && AllDigits(line))
    || IsPageMark(u)
  }

  /** Headings that close a listing when they appear on a line that is not a movement. */
  const SectionEnds: seq<string> :=
    ["IMPUESTOS DEBITADOS", "TRANSFERENCIAS ELECTRONICAS", "VISA DEBITO", "TARJETAS DE CREDITO",
     "PLAZO FIJO", "BONIFICACIONES Y PROMOCIONES", "CAJA DE SEGURIDAD", "ACUERDOS VIGENTES",
     "FONDOS COMUNES", "DETALLE DE CHEQUES", "RESUMEN DE SALDO", "LOS DEPÓSITOS EN PESOS"]

  /** The last heading as the source writes it, in mixed case, compared against an upper-cased line. */
  const SectionEndsAsWritten: seq<string> := SectionEnds[..11] + ["Los depósitos en pesos"]

  /** A heading ends the listing when it occurs in the upper-cased line. */
  predicate EndsSection(line: string, headings: seq<string>) {
    ContainsAny(Upper(line), headings)
  }

  /** A word with a lower-case letter never occurs in an upper-cased line. */
  lemma LowerCaseNeverInUpper(line: string, w: string, j: nat)
    requires j < |w| && 'a' <= w[j] <= 'z'
    ensures !Contains(Upper(line), w)
  {
    var u := Upper(line);
    forall i | 0 <= i <= |u| - |w|
      ensures !OccursAt(u, w, i)
    {
      assert u[i + j] != w[j];
      assert u[i..i + |w|][j] != w[j];
    }
  }

  /**
   * As written, the deposit-guarantee heading can never end a listing: its lower-case letters
   * cannot occur in an upper-cased line, so only the other eleven headings count.
   */
  lemma {:induction false} MixedCaseHeadingNeverMatches(line: string)
    ensures EndsSection(line, SectionEndsAsWritten) <==> ContainsAny(Upper(line), SectionEnds[..11])
  {
    var u := Upper(line);
    var kw := "Los depósitos en pesos";
    assert SectionEndsAsWritten[11] == kw;
    LowerCaseNeverInUpper(line, kw, 1);
    if ContainsAny(u, SectionEnds[..11]) {
      var k :| 0 <= k < 11 && Contains(u, SectionEnds[..11][k]);
      assert SectionEndsAsWritten[k] == SectionEnds[..11][k];
    }
    if EndsSection(line, SectionEndsAsWritten) {
      var k :| 0 <= k < |SectionEndsAsWritten| && Contains(u, SectionEndsAsWritten[k]);
      assert k < 11;
      assert SectionEnds[..11][k] == SectionEndsAsWritten[k];
    }
  }

  /** With the heading upper-cased, a line announcing the deposit guarantee does end the listing. */
  lemma DepositHeadingEndsSection(line: string)
    requires Contains(Upper(line), "LOS DEPÓSITOS EN PESOS")
    ensures EndsSection(line, SectionEnds)
  {
    assert SectionEnds[11] == "LOS DEPÓSITOS EN PESOS";
  }

  // ---------------------------------------------------------------------------
  // Classifying a movement

  datatype Kind = Debit | Credit

  const CreditKeywords: seq<string> :=
    ["TRANSFERENCIA RECIBIDA", "TRANSF. INMEDIATA RECIBIDA", "CRÉDITO RESCATE", "CREDITO RESCATE",
     "ACREDITACION DE PLAZO FIJO", "ACRED. INTERESES", "COBRANZA BURSATIL",
     "TRANSFERENCIA RECIBIDA DATANET", "ANSES", "DEPOSITO DE CHEQUES", "DEV. IMP.", "AJUSTE BANELCO",
     "DEPÓSITO EFECTIVO", "DEPOSITO EFECTIVO", "DEPOSITO DE EFECTIVO"]

  const DebitKeywords: seq<string> :=
    ["PAGO ELECTRONICO", "PAGO DE SERVICIOS", "TRANSF. INMEDIATA ENVIADA", "TRANSFERENCIA ENVIADA",
     "TRANSF. INMEDIATA ENVIADA DIFE", "TRANSFERENCIA TERCEROS", "TRANSF INMED SUELDOS",
     "DEBITO INMED ENVIADO", "DEBITO INMEDIATO ENVIADO", "DEBITO DEBIN", "DEBITO AUTOM",
     "DEBITO TARJETA", "DÉBITO SUSCRIPCIÓN", "DEBITO SUSCRIPCION", "DÉBITO POR RECAUDACIÓN",
     "DEBITO POR RECAUDACION", "COMISIÓN", "COMISION", "IMPUESTO", "IVA", "PERCEPCION",
     "CONSTITUCION DE PLAZO FIJO", "EXTRACCION CAJERO", "CHEQUE DE CAMARA RECHAZADO",
     "TRANSF INMED. CUENTAS PROPIAS", "TRANSFERENCIA SUELDOS", "IMP. IB", "INTERESES POR ACUERDO",
     "IMPUESTO A LOS SELLOS", "EXTRACCION DE EFECTIVO"]

  /** A credit keyword wins over a debit keyword; a description with neither is unclassified. */
  function Classify(concept: string): Option<Kind> {
    var u := Upper(concept);
    if ContainsAny(u, CreditKeywords) then Some(Credit)
    else if ContainsAny(u, DebitKeywords) then Some(Debit)
    else None
  }

  /** Classification does not depend on how the description is capitalised. */
  lemma ClassifyIgnoresCase(concept: string)
    ensures Classify(Lower(concept)) == Classify(concept)
    ensures Classify(Upper(concept)) == Classify(concept)
  {
    UpperIgnoresCase(concept);
  }

  /**
   * An unclassified movement with a printed balance is a credit when adding the amount to
   * the previous balance lands closer to the printed one than subtracting it does: for a
   * positive amount, exactly when the balance rose.
   */
  function ByBalance(prev: int, amount: int, balance: int): (r: Kind)
    ensures amount > 0 ==> (r == Credit <==> balance > prev)
    ensures amount < 0 ==> (r == Credit <==> balance < prev)
    ensures amount == 0 ==> r == Debit
  {
    if Abs((prev + amount) - balance) < Abs((prev - amount) - balance) then Credit else Debit
  }

  // ---------------------------------------------------------------------------
  // Movements and accounts

  /** A movement as the listing records it: the amount sits in the debit or the credit column. */
  datatype Entry = Entry(date: string, description: string, debit: int, credit: int, balance: Option<int>)

  /** At most one of the two columns holds the amount. */
  predicate OneSided(e: Entry) {
    e.debit == 0 || e.credit == 0
  }

  function Book(date: string, description: string, amount: int, kind: Kind, balance: Option<int>): (e: Entry)
    ensures kind == Credit ==> e.credit == amount && e.debit == 0
    ensures kind == Debit ==> e.debit == amount && e.credit == 0
  {
    Entry(date, description, if kind == Debit then amount else 0, if kind == Credit then amount else 0, balance)
  }

  /**
   * The balance in force before the next movement: the last printed or filled balance, or
   * the opening balance when no movement has one.
   */
  function LastKnownBalance(es: seq<Entry>, opening: int): (r: int)
    ensures (forall k :: 0 <= k < |es| ==> es[k].balance.None?) ==> r == opening
    ensures (exists k :: 0 <= k < |es| && es[k].balance.Some?) ==>
      exists k :: 0 <= k < |es| && es[k].balance == Some(r)
        && forall j :: k < j < |es| ==> es[j].balance.None?
  {
    if es == [] then opening
    else if es[|es| - 1].balance.Some? then es[|es| - 1].balance.value
    else
      var r := LastKnownBalance(es[..|es| - 1], opening);
      assert forall k :: 0 <= k < |es| - 1 ==> es[..|es| - 1][k] == es[k];
      r
  }

  /** An account: its kind's title, currency, movements and opening and closing balances. */
  datatype Account = Account(kind: string, currency: Currency, movements: seq<Entry>, opening: int, closing: int)

  predicate AccountOk(a: Account) {
    forall k :: 0 <= k < |a.movements| ==> OneSided(a.movements[k])
  }

  /**
   * The movement a line's amounts record. With two or more amounts, the second to last is
   * the movement and the last the balance after it; with one, it is the movement and the
   * balance is not known yet; with none, the columns stay empty. The keywords decide the
   * column, then the balance against the previous one `prev`, and a lone amount without
   * keywords is a debit.
   */
  function FromAmounts(date: string, concept: string, ms: seq<string>, prev: int): (e: Entry)
    requires forall k :: 0 <= k < |ms| ==> IsMonto(ms[k])
    ensures OneSided(e) && e.date == date && e.description == concept
    ensures |ms| >= 2 ==>
      (e.balance == Some(MontoValue(ms[|ms| - 1])) && e.debit + e.credit == MontoValue(ms[|ms| - 2]))
    ensures |ms| >= 2 && Classify(concept).None? && MontoValue(ms[|ms| - 2]) > 0 ==>
      (e.credit > 0 <==> MontoValue(ms[|ms| - 1]) > prev)
    ensures |ms| >= 2 && Classify(concept) == Some(Credit) ==> e.credit == MontoValue(ms[|ms| - 2])
    ensures |ms| >= 2 && Classify(concept) == Some(Debit) ==> e.debit == MontoValue(ms[|ms| - 2])
    ensures |ms| == 1 ==> e.balance.None?
    ensures |ms| == 1 ==> e.credit == (if Classify(concept) == Some(Credit) then MontoValue(ms[0]) else 0)
    ensures |ms| == 1 ==> e.debit == (if Classify(concept) == Some(Credit) then 0 else MontoValue(ms[0]))
    ensures ms == [] ==> e.debit == 0 && e.credit == 0 && e.balance.None?
  {
    if |ms| >= 2 then
      var amount := MontoValue(ms[|ms| - 2]);
      var balance := MontoValue(ms[|ms| - 1]);
      var kind := match Classify(concept)
        case Some(k) => k
        case None => ByBalance(prev, amount, balance);
      Book(date, concept, amount, kind, Some(balance))
    else if |ms| == 1 then
      Book(date, concept, MontoValue(ms[0]), Classify(concept).GetOr(Debit), None)
    else Entry(date, concept, 0, 0, None)
  }

  /** The movement a dated line records: the line's amounts, with the amounts cut from its description. */
  function DatedEntry(a: Account, date: string, rest: string): Entry {
    var ms := Montos(rest);
    FromAmounts(date, Strip(CutAtLast(rest, ms)), ms, LastKnownBalance(a.movements, a.opening))
  }

  /**
   * A dated line: the previous-balance line sets the opening balance from its last amount;
   * any other dated line appends one movement.
   */
  function DatedLine(a: Account, date: string, rest: string): (r: Account)
    ensures AccountOk(a) ==> AccountOk(r)
    ensures r.kind == a.kind && r.currency == a.currency && r.closing == a.closing
    ensures Contains(Upper(rest), "SALDO ANTERIOR") ==> (r.movements == a.movements
      && r.opening == (if Montos(rest) == [] then a.opening else MontoValue(Montos(rest)[|Montos(rest)| - 1])))
    ensures !Contains(Upper(rest), "SALDO ANTERIOR") ==> (r.opening == a.opening
      && r.movements == a.movements + [DatedEntry(a, date, rest)])
  {
    if Contains(Upper(rest), "SALDO ANTERIOR") then
      var ms := Montos(rest);
      if ms == [] then a else a.(opening := MontoValue(ms[|ms| - 1]))
    else a.(movements := a.movements + [DatedEntry(a, date, rest)])
  }

  /** The text a continuation line contributes: the line with its amounts cut off, stripped. */
  function ContinuationText(line: string): string {
    Strip(CutAtLast(line, Montos(line)))
  }

  /** Continuation text extends the description unless it is empty or a rule of dashes. */
  function AppendText(description: string, text: string): (r: string)
    ensures StartsWith(r, description)
    ensures r == description <==> text == [] || StartsWith(text, "---")
  {
    if text != [] && !StartsWith(text, "---") then
      var r := description + " " + text;
      assert r[..|description|] == description;
      r
    else description
  }

  function ExtendDescription(description: string, line: string): string {
    AppendText(description, ContinuationText(line))
  }

  /**
   * The last movement once an undated line has continued it: its description is extended;
   * two or more amounts book the movement again, against the balance before it; a lone
   * amount books a movement whose columns are still empty, keeping its balance; otherwise
   * the columns stay.
   */
  function Continued(es: seq<Entry>, opening: int, line: string): (e: Entry)
    requires es != []
    ensures e.date == es[|es| - 1].date
    ensures OneSided(es[|es| - 1]) ==> OneSided(e)
  {
    var ms := Montos(line);
    var last := es[|es| - 1];
    var description := ExtendDescription(last.description, line);
    if |ms| >= 2 then
      FromAmounts(last.date, description, ms, LastKnownBalance(es[..|es| - 1], opening))
    else if |ms| == 1 && last.debit == 0 && last.credit == 0 then
      FromAmounts(last.date, description, ms, 0).(balance := last.balance)
    else last.(description := description)
  }

  /** An undated line inside a listing replaces the account's last movement by `e`; the others stay as they were. */
  function ReplaceLast(a: Account, e: Entry): (r: Account)
    requires a.movements != []
    ensures AccountOk(a) && OneSided(e) ==> AccountOk(r)
    ensures r.kind == a.kind && r.currency == a.currency && r.opening == a.opening && r.closing == a.closing
    ensures |r.movements| == |a.movements|
    ensures r.movements[..|a.movements| - 1] == a.movements[..|a.movements| - 1]
    ensures r.movements[|a.movements| - 1] == e
  {
    var n := |a.movements|;
    var r := a.(movements := a.movements[..n - 1] + [e]);
    assert forall k :: 0 <= k < n - 1 ==> r.movements[k] == a.movements[k];
    r
  }

  // ---------------------------------------------------------------------------
  // The scan over all lines

  /** The accounts found so far, in the order their numbers first appeared. */
  datatype Accounts = Accounts(order: seq<string>, info: map<string, Account>)

  /** Each account is listed once, every listed number has an account, and its movements are one-sided. */
  ghost predicate AccountsOk(acc: Accounts) {
    Distinct(acc.order)
    && (forall n :: n in acc.info <==> n in acc.order)
    && forall n :: n in acc.info ==> AccountOk(acc.info[n])
  }

  /** A header announces account `nro`: a new number opens an empty account; a known one is left as it is. */
  function Register(acc: Accounts, nro: string, kind: string, currency: Currency): (r: Accounts)
    ensures AccountsOk(acc) ==> AccountsOk(r)
    ensures nro in r.info
    ensures nro in acc.info ==> r == acc
    ensures nro !in acc.info ==> (r.order == acc.order + [nro]
      && r.info == acc.info[nro := Account(kind, currency, [], 0, 0)])
  {
    if nro in acc.info then acc
    else Accounts(acc.order + [nro], acc.info[nro := Account(kind, currency, [], 0, 0)])
  }

  /** Replaces an account's record, keeping the registry's shape. */
  function Update(acc: Accounts, nro: string, a: Account): (r: Accounts)
    requires nro in acc.info
    ensures AccountsOk(acc) && AccountOk(a) ==> AccountsOk(r)
    ensures r.order == acc.order && r.info == acc.info[nro := a]
  {
    acc.(info := acc.info[nro := a])
  }

  /**
   * What a line is, before the scan's state is consulted: blank, an account header (with the
   * number found in the five lines after it, if any), the heading that opens a listing, a
   * rule or column header, or any other stripped line.
   */
  datatype LineKind =
    | Blank
    | Header(nro: Option<string>, title: string, currency: Currency)
    | Opens
    | Ruled
    | Plain(line: string, closing: Option<Option<int>>, noise: bool, dated: Option<(string, string)>)

  /** The kind of line `i`; the header test comes first, as in the scan. */
  function KindOf(lines: seq<string>, i: nat): LineKind
    requires i < |lines|
  {
    var line := Strip(lines[i]);
    if line == [] then Blank
    else match HeaderSearch(line)
      case Some(h) => Header(FindNro(lines, i + 1, i + 6), KindTitles[h.0], h.1)
      case None =>
        if Contains(Upper(line), "DETALLE DE MOVIMIENTOS") then Opens
        else if StartsWith(line, "---") || StartsWith(line, "___") || IsColumnHeader(line) then Ruled
        else
          var closing := match SaldoAlSearch(line)
            case None => None
            case Some(t) => Some(ParseArNumber(t));
          Plain(line, closing, IsListingNoise(line), FechaMatch(line))
  }

  /** The scan's state: the accounts so far, the current account and whether a listing is open. */
  datatype Cursor = Cursor(acc: Accounts, current: Option<string>, inMovements: bool)

  ghost predicate CursorOk(c: Cursor) {
    AccountsOk(c.acc) && (c.current.Some? ==> c.current.value in c.acc.info)
  }

  /** Whether a listing of the current account is open. */
  predicate Listed(c: Cursor) {
    c.inMovements && c.current.Some? && c.current.value in c.acc.info
  }

  /**
   * A line that is neither a header, an opening heading, a rule nor a closing balance of the
   * current account. Inside a listing of the current account, noise is skipped, a dated line
   * is recorded and an undated line continues the last movement, if there is one; any other
   * line closes the listing when it holds one of `headings`.
   */
  function Listing(c: Cursor, p: LineKind, headings: seq<string>): (r: Cursor)
    requires p.Plain?
  {
    if Listed(c) && p.noise then c
    else if Listed(c) && p.dated.Some? then
      var n, d := c.current.value, p.dated.value;
      c.(acc := Update(c.acc, n, DatedLine(c.acc.info[n], d.0, d.1)))
    else if Listed(c) && c.acc.info[c.current.value].movements != [] then
      var n := c.current.value;
      var a := c.acc.info[n];
      c.(acc := Update(c.acc, n, ReplaceLast(a, Continued(a.movements, a.opening, p.line))))
    else if EndsSection(p.line, headings) then c.(inMovements := false)
    else c
  }

  /**
   * One line of the scan. A header selects (and on first sight registers) the account whose
   * number follows it and closes the listing; "DETALLE DE MOVIMIENTOS" opens the listing; a
   * `Saldo al:` line of the current account sets its closing balance and closes the
   * listing, and an unreadable closing balance aborts the statement.
   */
  function Step(c: Cursor, k: LineKind, headings: seq<string>): (r: Option<Cursor>) {
    match k
    case Blank => Some(c)
    case Header(nro, title, currency) =>
      if nro.Some? then Some(Cursor(Register(c.acc, nro.value, title, currency), nro, false))
      else Some(c.(inMovements := false))
    case Opens => Some(c.(inMovements := true))
    case Ruled => Some(c)
    case Plain(_, closing, _, _) =>
      if closing.Some? && c.current.Some? && c.current.value in c.acc.info then
        match closing.value
        case None => None
        case Some(v) =>
          var n := c.current.value;
          Some(Cursor(Update(c.acc, n, c.acc.info[n].(closing := v)), c.current, false))
      else Some(Listing(c, k, headings))
  }

  /** The kind of every line of a statement. */
  function Kinds(lines: seq<string>): (r: seq<LineKind>)
    ensures |r| == |lines| && forall i :: 0 <= i < |lines| ==> r[i] == KindOf(lines, i)
  {
    seq(|lines|, i requires 0 <= i < |lines| => KindOf(lines, i))
  }

  /** The scan after the first `n` lines of kinds `ks`, with `headings` closing listings; none once a closing balance failed. */
  function Run(ks: seq<LineKind>, n: nat, headings: seq<string>): Option<Cursor>
    requires n <= |ks|
  {
    if n == 0 then Some(Cursor(Accounts([], map[]), None, false))
    else Then(Run(ks, n - 1, headings), ks[n - 1], headings)
  }

  /** The scan after one more line; a failed scan stays failed. */
  function Then(st: Option<Cursor>, k: LineKind, headings: seq<string>): Option<Cursor> {
    if st.None? then None else Step(st.value, k, headings)
  }

  /** A listing line keeps the registry well formed and the current account registered. */
  lemma ListingOk(c: Cursor, p: LineKind, headings: seq<string>)
    requires p.Plain? && CursorOk(c)
    ensures CursorOk(Listing(c, p, headings))
  {
    if Listed(c) && !p.noise && p.dated.None? && c.acc.info[c.current.value].movements != [] {
      var a := c.acc.info[c.current.value];
      assert OneSided(a.movements[|a.movements| - 1]);
    }
  }

  /** Every line keeps the registry well formed and the current account registered. */
  lemma StepOk(c: Cursor, k: LineKind, headings: seq<string>)
    requires CursorOk(c)
    ensures Step(c, k, headings).Some? ==> CursorOk(Step(c, k, headings).value)
  {
    if k.Plain? && !(k.closing.Some? && c.current.Some?) {
      ListingOk(c, k, headings);
    }
  }

  /** The scan keeps the registry well formed and the current account registered. */
  lemma {:induction false} RunOk(ks: seq<LineKind>, n: nat, headings: seq<string>)
    requires n <= |ks|
    ensures Run(ks, n, headings).Some? ==> CursorOk(Run(ks, n, headings).value)
  {
    if n > 0 {
      RunOk(ks, n - 1, headings);
      assert Run(ks, n, headings) == Then(Run(ks, n - 1, headings), ks[n - 1], headings);
      if Run(ks, n - 1, headings).Some? {
        StepOk(Run(ks, n - 1, headings).value, ks[n - 1], headings);
      }
    }
  }

  /**
   * Inside a listing of the current account, a dated line that is neither noise, a closing
   * balance nor the previous-balance line appends exactly one movement to that account and
   * leaves every other account, the order and the listing as they were.
   */
  lemma DatedLineRecorded(c: Cursor, p: LineKind, headings: seq<string>)
    requires CursorOk(c) && Listed(c)
    requires p.Plain? && p.closing.None? && !p.noise && p.dated.Some?
    requires !Contains(Upper(p.dated.value.1), "SALDO ANTERIOR")
    ensures Step(c, p, headings).Some?
    ensures var r := Step(c, p, headings).value; var n := c.current.value;
      r.current == c.current && r.inMovements && r.acc.order == c.acc.order
      && r.acc.info == c.acc.info[n := r.acc.info[n]]
      && r.acc.info[n].movements == c.acc.info[n].movements
           + [DatedEntry(c.acc.info[n], p.dated.value.0, p.dated.value.1)]
  {
  }

  /**
   * As written, before the first movement of a listing, an undated line announcing the
   * deposit guarantee that holds no other heading leaves the listing open.
   */
  lemma DepositLineKeepsListing(c: Cursor, p: LineKind)
    requires CursorOk(c) && Listed(c) && c.acc.info[c.current.value].movements == []
    requires p.Plain? && p.closing.None? && !p.noise && p.dated.None?
    requires Contains(Upper(p.line), "LOS DEPÓSITOS EN PESOS") && !ContainsAny(Upper(p.line), SectionEnds[..11])
    ensures Step(c, p, SectionEndsAsWritten) == Some(c)
  {
    MixedCaseHeadingNeverMatches(p.line);
  }

  /** With the heading upper-cased, the same line closes the listing and changes nothing else. */
  lemma DepositLineClosesListing(c: Cursor, p: LineKind)
    requires CursorOk(c) && Listed(c) && c.acc.info[c.current.value].movements == []
    requires p.Plain? && p.closing.None? && !p.noise && p.dated.None?
    requires Contains(Upper(p.line), "LOS DEPÓSITOS EN PESOS")
    ensures Step(c, p, SectionEnds) == Some(c.(inMovements := false))
  {
    DepositHeadingEndsSection(p.line);
  }

  /** The date a line carries when it is a dated line. */
  function DateOf(k: LineKind): Option<string> {
    if k.Plain? && k.dated.Some? then Some(k.dated.value.0) else None
  }

  /** Some line among the first `n` is dated `d`. */
  ghost predicate DatedBefore(ks: seq<LineKind>, n: nat, d: string)
    requires n <= |ks|
  {
    exists j :: 0 <= j < n && DateOf(ks[j]) == Some(d)
  }

  /** Every movement of every account is dated as one of the first `n` lines. */
  ghost predicate DatesFromLines(c: Cursor, ks: seq<LineKind>, n: nat)
    requires n <= |ks|
  {
    forall m, e :: m in c.acc.info && e in c.acc.info[m].movements ==> DatedBefore(ks, n, e.date)
  }

  /** A date found among the first `n` lines is found among the first `n + 1`. */
  lemma DatesGrow(c: Cursor, ks: seq<LineKind>, n: nat)
    requires n < |ks| && DatesFromLines(c, ks, n)
    ensures DatesFromLines(c, ks, n + 1)
  {
    forall m, e | m in c.acc.info && e in c.acc.info[m].movements
      ensures DatedBefore(ks, n + 1, e.date)
    {
      assert DatedBefore(ks, n, e.date);
      var j :| 0 <= j < n && DateOf(ks[j]) == Some(e.date);
      assert 0 <= j < n + 1;
    }
  }

  /** A listing line adds only movements dated as the line, and a continued movement keeps its date. */
  lemma ListingDates(c: Cursor, ks: seq<LineKind>, n: nat, headings: seq<string>)
    requires n < |ks| && ks[n].Plain? && DatesFromLines(c, ks, n)
    ensures DatesFromLines(Listing(c, ks[n], headings), ks, n + 1)
  {
    var p := ks[n];
    DatesGrow(c, ks, n);
    if Listed(c) && !p.noise && p.dated.Some? {
      var cur := c.current.value;
      var a := c.acc.info[cur];
      RecordedDates(c, ks, n, cur, DatedLine(a, p.dated.value.0, p.dated.value.1));
    } else if Listed(c) && !p.noise && c.acc.info[c.current.value].movements != [] {
      var cur := c.current.value;
      var a := c.acc.info[cur];
      ContinuedDates(c, ks, n, cur, ReplaceLast(a, Continued(a.movements, a.opening, p.line)));
    }
  }

  /** Recording a dated line adds at most one movement, dated as the line. */
  lemma RecordedDates(c: Cursor, ks: seq<LineKind>, n: nat, cur: string, b: Account)
    requires n < |ks| && DatesFromLines(c, ks, n + 1) && cur in c.acc.info
    requires DateOf(ks[n]).Some?
    requires b.movements == c.acc.info[cur].movements
      || (exists e :: b.movements == c.acc.info[cur].movements + [e] && e.date == DateOf(ks[n]).value)
    ensures DatesFromLines(c.(acc := Update(c.acc, cur, b)), ks, n + 1)
  {
    var r := c.(acc := Update(c.acc, cur, b));
    forall m, e | m in r.acc.info && e in r.acc.info[m].movements
      ensures DatedBefore(ks, n + 1, e.date)
    {
      if m == cur && e !in c.acc.info[m].movements {
        assert e.date == DateOf(ks[n]).value;
      }
    }
  }

  /** Continuing the last movement keeps the dates of all movements. */
  lemma ContinuedDates(c: Cursor, ks: seq<LineKind>, n: nat, cur: string, b: Account)
    requires n < |ks| && DatesFromLines(c, ks, n + 1) && cur in c.acc.info
    requires var ms := c.acc.info[cur].movements;
      ms != [] && |b.movements| == |ms| && b.movements[..|ms| - 1] == ms[..|ms| - 1]
      && b.movements[|ms| - 1].date == ms[|ms| - 1].date
    ensures DatesFromLines(c.(acc := Update(c.acc, cur, b)), ks, n + 1)
  {
    var r := c.(acc := Update(c.acc, cur, b));
    var ms := c.acc.info[cur].movements;
    forall m, e | m in r.acc.info && e in r.acc.info[m].movements
      ensures DatedBefore(ks, n + 1, e.date)
    {
      if m == cur {
        var i :| 0 <= i < |b.movements| && b.movements[i] == e;
        if i < |ms| - 1 {
          assert e == ms[..|ms| - 1][i];
        } else {
          assert ms[|ms| - 1] in ms;
        }
      }
    }
  }

  /** One more line keeps every movement dated as some line read so far. */
  lemma StepDates(c: Cursor, ks: seq<LineKind>, n: nat, headings: seq<string>)
    requires n < |ks| && DatesFromLines(c, ks, n)
    ensures Step(c, ks[n], headings).Some? ==> DatesFromLines(Step(c, ks[n], headings).value, ks, n + 1)
  {
    DatesGrow(c, ks, n);
    if ks[n].Plain? && !(ks[n].closing.Some? && c.current.Some?) {
      ListingDates(c, ks, n, headings);
    }
  }

  /** `StepDates` for a scan that may have failed. */
  lemma ThenDates(st: Option<Cursor>, ks: seq<LineKind>, n: nat, headings: seq<string>)
    requires n < |ks| && (st.Some? ==> DatesFromLines(st.value, ks, n))
    ensures Then(st, ks[n], headings).Some? ==> DatesFromLines(Then(st, ks[n], headings).value, ks, n + 1)
  {
    if st.Some? {
      StepDates(st.value, ks, n, headings);
    }
  }

  /** Every movement the scan records is dated as one of the lines read. */
  lemma {:induction false} RunDates(ks: seq<LineKind>, n: nat, headings: seq<string>)
    requires n <= |ks|
    ensures Run(ks, n, headings).Some? ==> DatesFromLines(Run(ks, n, headings).value, ks, n)
  {
    if n > 0 {
      var m := n - 1;
      RunDates(ks, m, headings);
      ThenDates(Run(ks, m, headings), ks, m, headings);
      assert Run(ks, n, headings) == Then(Run(ks, m, headings), ks[m], headings);
    }
  }

  /** The accounts of a statement. */
  function ScanAll(lines: seq<string>): Option<Accounts> {
    match Run(Kinds(lines), |lines|, SectionEnds)
    case None => None
    case Some(c) => Some(c.acc)
  }

  /** Every movement of the statement carries the date of one of its dated lines. */
  lemma ScanDates(lines: seq<string>)
    ensures ScanAll(lines).Some? ==>
      (forall m, e :: m in ScanAll(lines).value.info && e in ScanAll(lines).value.info[m].movements ==>
        exists j :: 0 <= j < |lines| && DateOf(KindOf(lines, j)) == Some(e.date))
  {
    var ks := Kinds(lines);
    RunDates(ks, |ks|, SectionEnds);
    if ScanAll(lines).Some? {
      var c := Run(ks, |ks|, SectionEnds).value;
      forall m, e | m in c.acc.info && e in c.acc.info[m].movements
        ensures exists j :: 0 <= j < |lines| && DateOf(KindOf(lines, j)) == Some(e.date)
      {
        assert DatedBefore(ks, |ks|, e.date);
        var j :| 0 <= j < |ks| && DateOf(ks[j]) == Some(e.date);
        assert DateOf(KindOf(lines, j)) == Some(e.date);
      }
    }
  }

  /**
   * Reads every account of a statement, line by line, keeping the current account and
   * whether its listing is open.
   */
  method Scan(lines: seq<string>) returns (r: Option<Accounts>)
    ensures r == ScanAll(lines)
    ensures r.Some? ==> AccountsOk(r.value)
  {
    var ks := Kinds(lines);
    var st := Some(Cursor(Accounts([], map[]), None, false));
    for i := 0 to |ks|
      invariant Run(ks, i, SectionEnds) == st
    {
      st := Then(st, ks[i], SectionEnds);
    }
    RunOk(ks, |ks|, SectionEnds);
    r := if st.None? then None else Some(st.value.acc);
  }

  // ---------------------------------------------------------------------------
  // Filling in missing balances

  /** The net effect of each movement on the balance. */
  function Nets(es: seq<Entry>): (r: seq<int>)
    ensures |r| == |es| && forall k :: 0 <= k < |es| ==> r[k] == es[k].credit - es[k].debit
  {
    seq(|es|, k requires 0 <= k < |es| => es[k].credit - es[k].debit)
  }

  /** The balances of a list of movements, zero where one is not known. */
  function Balances(es: seq<Entry>): (r: seq<int>)
    ensures |r| == |es| && forall k :: 0 <= k < |es| ==> r[k] == BalanceOf(es[k])
  {
    seq(|es|, k requires 0 <= k < |es| => BalanceOf(es[k]))
  }

  /** A balance that is known, or zero for one that is not. */
  function BalanceOf(e: Entry): int {
    match e.balance
    case Some(b) => b
    case None => 0
  }

  /** A movement keeps its printed balance; one without gets the balance before it plus its credit minus its debit. */
  function Refill(e: Entry, before: int): (r: Entry)
    ensures r.balance.Some? && r.date == e.date && r.description == e.description
    ensures r.debit == e.debit && r.credit == e.credit
    ensures e.balance.Some? ==> r == e
    ensures e.balance.None? ==> BalanceOf(r) == before + e.credit - e.debit
  {
    if e.balance.Some? then e else e.(balance := Some(before + e.credit - e.debit))
  }

  /** The balance before the `k`-th movement: the previous one's, or the opening balance for the first. */
  function Before(opening: int, r: seq<Entry>, k: int): int {
    if 0 < k <= |r| then BalanceOf(r[k - 1]) else opening
  }

  /** Each movement of `r` is the one of `es` refilled from the balance before it. */
  ghost predicate FilledFrom(opening: int, es: seq<Entry>, r: seq<Entry>) {
    |r| == |es|
    && forall k {:trigger es[k]} :: 0 <= k < |es| ==> r[k] == Refill(es[k], Before(opening, r, k))
  }

  /**
   * Gives every movement without a balance the running balance. A printed balance is kept
   * and the running balance restarts from it.
   */
  method FillBalances(opening: int, es: seq<Entry>) returns (r: seq<Entry>)
    ensures FilledFrom(opening, es, r) && Complete(r)
  {
    r := [];
    var running := opening;
    var i := 0;
    while i < |es|
      invariant 0 <= i <= |es| && |r| == i
      invariant forall k :: 0 <= k < i ==> r[k] == Refill(es[k], Before(opening, r, k))
      invariant running == Before(opening, r, i)
      invariant Complete(r)
    {
      var e := es[i];
      running := running + e.credit - e.debit;
      if e.balance.None? {
        e := e.(balance := Some(running));
      } else {
        running := e.balance.value;
      }
      FillStep(opening, es, r, e);
      r := r + [e];
      i := i + 1;
    }
  }

  /** Appending the next refilled movement keeps every earlier movement refilled from the balance before it. */
  lemma FillStep(opening: int, es: seq<Entry>, r: seq<Entry>, e: Entry)
    requires |r| < |es| && forall k :: 0 <= k < |r| ==> r[k] == Refill(es[k], Before(opening, r, k))
    requires e == Refill(es[|r|], Before(opening, r, |r|))
    ensures forall k :: 0 <= k <= |r| ==> (r + [e])[k] == Refill(es[k], Before(opening, r + [e], k))
  {
    var r' := r + [e];
    forall k | 0 <= k <= |r|
      ensures r'[k] == Refill(es[k], Before(opening, r', k))
    {
      assert Before(opening, r', k) == Before(opening, r, k);
    }
  }

  /** Filling keeps each movement's columns, so it keeps every account's movements one-sided. */
  lemma FilledOneSided(opening: int, es: seq<Entry>, r: seq<Entry>)
    requires FilledFrom(opening, es, r)
    requires forall k :: 0 <= k < |es| ==> OneSided(es[k])
    ensures forall k :: 0 <= k < |r| ==> OneSided(r[k]) && r[k].debit == es[k].debit && r[k].credit == es[k].credit
  {
    forall k | 0 <= k < |r|
      ensures r[k] == Refill(es[k], Before(opening, r, k))
    {
    }
  }

  /** With no printed balance at all, the filled balances are the running sums from the opening balance. */
  lemma FilledIsRunning(opening: int, es: seq<Entry>, r: seq<Entry>)
    requires FilledFrom(opening, es, r)
    requires forall k :: 0 <= k < |es| ==> es[k].balance.None?
    ensures Balances(r) == Ledger.Running(opening, Nets(es))
  {
    var bs, nets := Balances(r), Nets(es);
    forall k | 0 <= k < |bs|
      ensures bs[k] == Ledger.PrevBalance(opening, bs, k) + nets[k]
    {
      assert r[k] == Refill(es[k], Before(opening, r, k));
      assert Before(opening, r, k) == Ledger.PrevBalance(opening, bs, k);
    }
    Ledger.StepsAreRunning(opening, nets, bs);
  }

  // ---------------------------------------------------------------------------
  // The sheet of each account

  /** The credit column: the movements whose credit is positive. */
  function CreditColumn(es: seq<Entry>): (r: seq<int>)
    ensures forall k :: 0 <= k < |r| ==> r[k] > 0
  {
    if es == [] then []
    else CreditColumn(es[..|es| - 1]) + (if es[|es| - 1].credit > 0 then [es[|es| - 1].credit] else [])
  }

  /** The debit column: the movements whose debit is positive. */
  function DebitColumn(es: seq<Entry>): (r: seq<int>)
    ensures forall k :: 0 <= k < |r| ==> r[k] > 0
  {
    if es == [] then []
    else DebitColumn(es[..|es| - 1]) + (if es[|es| - 1].debit > 0 then [es[|es| - 1].debit] else [])
  }

  /**
   * The sheet name: the currency's code and the account number, cleaned for a cell and cut
   * to the 31 characters a sheet name allows.
   */
  function SheetName(nro: string, currency: Currency): (r: string)
    ensures |r| <= 31
  {
    var name := CleanForExcel((if currency == Dolares then "USD " else "ARS ") + nro);
    if |name| <= 31 then name else name[..31]
  }

  function MakeSheet(nro: string, a: Account): (s: Ledger.Sheet)
    ensures s.name == SheetName(nro, a.currency) && s.opening == a.opening && s.closing == a.closing
    ensures a.movements == [] <==> s.control.None?
    ensures s.control.Some? ==>
      s.control.value == Ledger.Control(a.opening, Ledger.Sum(s.credits), Ledger.Sum(s.debits), a.closing)
  {
    if a.movements == [] then Ledger.Sheet(SheetName(nro, a.currency), a.opening, a.closing, [], [], None)
    else
      var cs, ds := CreditColumn(a.movements), DebitColumn(a.movements);
      Ledger.Sheet(SheetName(nro, a.currency), a.opening, a.closing, cs, ds,
            Some(Ledger.Control(a.opening, Ledger.Sum(cs), Ledger.Sum(ds), a.closing)))
  }

  /** The workbook: one sheet per account in order of appearance, or nothing when no account has movements. */
  function Sheets(acc: Accounts): (r: Option<seq<Ledger.Sheet>>)
    requires AccountsOk(acc)
    ensures r.Some? <==> exists k :: 0 <= k < |acc.order| && acc.info[acc.order[k]].movements != []
    ensures r.Some? ==> (|r.value| == |acc.order|
      && forall k :: 0 <= k < |acc.order| ==> r.value[k] == MakeSheet(acc.order[k], acc.info[acc.order[k]]))
  {
    if forall k :: 0 <= k < |acc.order| ==> acc.info[acc.order[k]].movements == [] then None
    else Some(seq(|acc.order|, k requires 0 <= k < |acc.order| => MakeSheet(acc.order[k], acc.info[acc.order[k]])))
  }

  /** With non-negative one-sided movements, the two columns are the positive and negative net amounts. */
  lemma {:induction false} ColumnsAreCreditsAndDebits(es: seq<Entry>)
    requires forall k :: 0 <= k < |es| ==> OneSided(es[k]) && es[k].debit >= 0 && es[k].credit >= 0
    ensures CreditColumn(es) == Ledger.Credits(Nets(es))
    ensures DebitColumn(es) == Ledger.Debits(Nets(es))
  {
    if es != [] {
      var init := es[..|es| - 1];
      assert Nets(es)[..|es| - 1] == Nets(init);
      ColumnsAreCreditsAndDebits(init);
    }
  }

  /**
   * When every movement is a non-negative one-sided amount and no balance was printed, the
   * control value is the last filled balance minus the closing balance: zero exactly when
   * the statement's closing balance is where the movements lead.
   */
  lemma ControlOfFilled(a: Account, filled: seq<Entry>)
    requires a.movements != []
    requires forall k :: 0 <= k < |a.movements| ==>
      OneSided(a.movements[k]) && a.movements[k].debit >= 0 && a.movements[k].credit >= 0
      && a.movements[k].balance.None?
    requires Balances(filled) == Ledger.Running(a.opening, Nets(a.movements))
    ensures MakeSheet([], a).control == Some(Balances(filled)[|filled| - 1] - a.closing)
  {
    var nets := Nets(a.movements);
    ColumnsAreCreditsAndDebits(a.movements);
    var cs, ds := Ledger.Credits(nets), Ledger.Debits(nets);
    assert MakeSheet([], a).control == Some(Ledger.Control(a.opening, Ledger.Sum(cs), Ledger.Sum(ds), a.closing));
    Ledger.ControlOfMovements(a.opening, nets, a.closing);
    Ledger.RunningEnds(a.opening, nets);
    assert Balances(filled)[|filled| - 1] == Ledger.Last(Ledger.Running(a.opening, nets));
  }

  // ---------------------------------------------------------------------------
  // The whole statement

  /** Every movement has a balance. */
  predicate Complete(es: seq<Entry>) {
    forall k :: 0 <= k < |es| ==> es[k].balance.Some?
  }

  /** `after` is `before` with its movements' balances filled in from its opening balance. */
  ghost predicate AccountFilled(before: Account, after: Account) {
    after == before.(movements := after.movements)
    && FilledFrom(before.opening, before.movements, after.movements)
    && Complete(after.movements)
  }

  /** The accounts in `done` are filled, the others are as in `acc`, and the registry keeps its shape. */
  ghost predicate FilledSoFar(acc: Accounts, r: Accounts, done: set<string>) {
    AccountsOk(r) && r.order == acc.order && r.info.Keys == acc.info.Keys
    && Untouched(acc.info, r.info, done) && AllFilled(acc.info, r.info, done)
  }

  /** The accounts outside `done` are as they were. */
  ghost predicate Untouched(before: map<string, Account>, after: map<string, Account>, done: set<string>) {
    forall n :: n in before && n !in done ==> n in after && after[n] == before[n]
  }

  /** The accounts in `done` are filled. */
  ghost predicate AllFilled(before: map<string, Account>, after: map<string, Account>, done: set<string>) {
    forall n :: n in done ==> n in before && n in after && AccountFilled(before[n], after[n])
  }

  /** The state of the fill loop after the first `i` accounts of the order, those in `done`. */
  ghost predicate FillLoop(acc: Accounts, r: Accounts, done: set<string>, i: nat) {
    i <= |acc.order| && FilledSoFar(acc, r, done) && (forall n :: n in done <==> n in acc.order[..i])
  }

  /** The accounts done before position `i` of a list of distinct numbers exclude the one at `i`. */
  lemma DoneStep(order: seq<string>, done: set<string>, i: nat)
    requires Distinct(order) && i < |order|
    requires forall n :: n in done <==> n in order[..i]
    ensures order[i] !in done
    ensures forall n :: n in Insert(done, order[i]) <==> n in order[..i + 1]
  {
    assert order[..i + 1] == order[..i] + [order[i]];
    forall k | 0 <= k < i
      ensures order[..i][k] != order[i]
    {
      assert order[..i][k] == order[k];
    }
  }

  /** Filling one more untouched account leaves the rest untouched. */
  lemma UntouchedStep(before: map<string, Account>, after: map<string, Account>, done: set<string>, nro: string, b: Account)
    requires Untouched(before, after, done)
    ensures Untouched(before, after[nro := b], Insert(done, nro))
  {
  }

  /** Filling one more untouched account adds it to the filled ones. */
  lemma AllFilledStep(before: map<string, Account>, after: map<string, Account>, done: set<string>, nro: string, b: Account)
    requires AllFilled(before, after, done) && Untouched(before, after, done)
    requires nro in before && nro !in done && AccountFilled(after[nro], b)
    ensures AllFilled(before, after[nro := b], Insert(done, nro))
  {
    assert after[nro] == before[nro];
    forall n | n in done + {nro}
      ensures n in before && AccountFilled(before[n], after[nro := b][n])
    {
      if n != nro {
        assert after[nro := b][n] == after[n];
      }
    }
  }

  lemma FillAllStep(acc: Accounts, r: Accounts, done: set<string>, i: nat, b: Account)
    requires FillLoop(acc, r, done, i) && i < |acc.order|
    requires AccountFilled(r.info[acc.order[i]], b) && AccountOk(b)
    ensures FillLoop(acc, Update(r, acc.order[i], b), Insert(done, acc.order[i]), i + 1)
  {
    var nro := acc.order[i];
    DoneStep(acc.order, done, i);
    UntouchedStep(acc.info, r.info, done, nro, b);
    AllFilledStep(acc.info, r.info, done, nro, b);
  }

  /** Fills in the missing balances of every account; nothing else about the accounts changes. */
  method FillAll(acc: Accounts) returns (r: Accounts)
    requires AccountsOk(acc)
    ensures AccountsOk(r) && r.order == acc.order && r.info.Keys == acc.info.Keys
    ensures forall n :: n in acc.info ==> AccountFilled(acc.info[n], r.info[n])
  {
    r := acc;
    ghost var done: set<string> := {};
    var i := 0;
    while i < |acc.order|
      invariant FillLoop(acc, r, done, i)
    {
      var nro := acc.order[i];
      var a := r.info[nro];
      var filled := FillBalances(a.opening, a.movements);
      FilledOneSided(a.opening, a.movements, filled);
      FillAllStep(acc, r, done, i, a.(movements := filled));
      r := Update(r, nro, a.(movements := filled));
      done := done + {nro};
      i := i + 1;
    }
    assert acc.order[..i] == acc.order;
    assert forall n :: n in acc.info ==> n in done;
  }

  /**
   * The whole statement: the accounts it holds, with their balances filled in, and one
   * sheet per account; nothing when a closing balance cannot be read, and no sheets when
   * no account has movements.
   */
  method Process(lines: seq<string>) returns (accounts: Option<Accounts>, sheets: Option<seq<Ledger.Sheet>>)
    ensures accounts.None? <==> ScanAll(lines).None?
    ensures accounts.Some? ==> AccountsOk(accounts.value) && sheets == Sheets(accounts.value)
    ensures accounts.Some? ==> (accounts.value.order == ScanAll(lines).value.order
      && forall n :: n in ScanAll(lines).value.info ==>
           n in accounts.value.info && AccountFilled(ScanAll(lines).value.info[n], accounts.value.info[n]))
    ensures accounts.None? ==> sheets.None?
    ensures accounts.Some? ==> forall n :: n in accounts.value.info ==> Complete(accounts.value.info[n].movements)
  {
    var scanned := Scan(lines);
    if scanned.None? {
      return None, None;
    }
    var filled := FillAll(scanned.value);
    accounts := Some(filled);
    sheets := Sheets(filled);
  }
}
