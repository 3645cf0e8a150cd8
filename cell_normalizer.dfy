/**
 * The per-item logic of `MainActivity.getCellInfo`: how one platform cell
 * measurement (LTE, WCDMA, GSM or anything else) becomes one row of the `cellinfo`
 * table and one paragraph of the summary text, depending on the platform API level;
 * and `getNetworkType`, the name shown for the device's current network type code.
 */
module CellNormalizer {
  import opened Wrappers
  import opened Decimal
  import opened CellInfoDb

  // Build.VERSION_CODES used as capability gates
  const VersionO: int := 26
  const VersionP: int := 28
  const VersionR: int := 30

  // TelephonyManager.NETWORK_TYPE_* codes that getNetworkType recognises
  const NetworkTypeGprs: int := 1
  const NetworkTypeEdge: int := 2
  const NetworkTypeHspa: int := 10
  const NetworkTypeLte: int := 13
  const NetworkTypeHspap: int := 15
  // codes it has no arm for
  const NetworkTypeUmts: int := 3
  const NetworkTypeNr: int := 20

  /** The sentinel for a value the running platform cannot supply. */
  const NotAvailable: string := "N/A"

  const TechnologyLte: string := "4G (LTE)"
  const TechnologyWcdma: string := "3G (WCDMA)"
  const TechnologyGsm: string := "2G (GSM)"

  /**
   * One element of `allCellInfo`.  Each recognised variant carries the identity and
   * signal-strength getters the code reads; `networkOperator` is the nullable
   * `mobileNetworkOperator`.  `Other` is any further `CellInfo` subclass (NR, CDMA,
   * TD-SCDMA, ...), whose contents are never read.
   */
  datatype Cell =
    | Lte(networkOperator: Option<string>, tac: Int32, ci: Int32, rsrp: Int32, rsrq: Int32)
    | Wcdma(networkOperator: Option<string>, lac: Int32, cid: Int32, dbm: Int32, ecNo: Int32)
    | Gsm(networkOperator: Option<string>, lac: Int32, cid: Int32, dbm: Int32)
    | Other

  predicate Recognised(cell: Cell) {
    !cell.Other?
  }

  /** `getNetworkType`: the name of a `TelephonyManager.networkType` code. */
  function NetworkTypeName(networkType: int): (name: string)
    ensures name in {"4G (LTE)", "3G (HSPA)", "2G (EDGE/GPRS)", "Unknown"}
    ensures name == "Unknown" <==>
      networkType !in {NetworkTypeLte, NetworkTypeHspa, NetworkTypeHspap, NetworkTypeEdge, NetworkTypeGprs}
  {
    if networkType == NetworkTypeLte then "4G (LTE)"
    else if networkType == NetworkTypeHspa || networkType == NetworkTypeHspap then "3G (HSPA)"
    else if networkType == NetworkTypeEdge || networkType == NetworkTypeGprs then "2G (EDGE/GPRS)"
    else "Unknown"
  }

  /** HSPA and HSPA+ share one name, as do EDGE and GPRS; each name has exactly its codes. */
  lemma NetworkTypeClasses(networkType: int)
    ensures NetworkTypeName(networkType) == "4G (LTE)" <==> networkType == NetworkTypeLte
    ensures NetworkTypeName(networkType) == "3G (HSPA)" <==>
      networkType == NetworkTypeHspa || networkType == NetworkTypeHspap
    ensures NetworkTypeName(networkType) == "2G (EDGE/GPRS)" <==>
      networkType == NetworkTypeEdge || networkType == NetworkTypeGprs
    ensures NetworkTypeName(NetworkTypeUmts) == "Unknown" && NetworkTypeName(NetworkTypeNr) == "Unknown"
  {
  }

  /** The PLMN column: the operator from API level P on, the sentinel before. */
  function PlmnId(networkOperator: Option<string>, sdk: int): Option<string> {
    if sdk >= VersionP then networkOperator else Some(NotAvailable)
  }

  /** A signal value the platform supplies from API level `since` on, as text. */
  function GatedSignal(value: Int32, sdk: int, since: int): string {
    if sdk >= since then IntToString(value as int) else NotAvailable
  }

  /** What a Kotlin string template shows for a `String?`. */
  function Shown(s: Option<string>): string {
    match s
    case None => "null"
    case Some(x) => x
  }

  /**
   * The values one recognised cell puts into the table; `None` for a variant the code
   * does not handle, which inserts nothing.
   */
  function Normalize(cell: Cell, sdk: int, eventTime: string): (r: Option<Row>)
    ensures r.Some? <==> Recognised(cell)
    ensures r.Some? ==> r.value.technology in {TechnologyLte, TechnologyWcdma, TechnologyGsm}
    ensures cell.Lte? <==> r.Some? && r.value.technology == TechnologyLte
    ensures cell.Wcdma? <==> r.Some? && r.value.technology == TechnologyWcdma
    ensures cell.Gsm? <==> r.Some? && r.value.technology == TechnologyGsm
  {
    match cell
    case Lte(op, tac, ci, rsrp, rsrq) =>
      Some(Row(eventTime, PlmnId(op, sdk), tac as int, ci as int,
               GatedSignal(rsrp, sdk, VersionO), GatedSignal(rsrq, sdk, VersionO), TechnologyLte))
    case Wcdma(op, lac, cid, dbm, ecNo) =>
      Some(Row(eventTime, PlmnId(op, sdk), lac as int, cid as int,
               IntToString(dbm as int), GatedSignal(ecNo, sdk, VersionR), TechnologyWcdma))
    case Gsm(op, lac, cid, dbm) =>
      Some(Row(eventTime, PlmnId(op, sdk), lac as int, cid as int,
               IntToString(dbm as int), NotAvailable, TechnologyGsm))
    case Other => None
  }

  /** The area code (LTE tac, WCDMA and GSM lac) of a recognised cell. */
  function AreaCode(cell: Cell): Int32
    requires Recognised(cell)
  {
    match cell
    case Lte(_, tac, _, _, _) => tac
    case Wcdma(_, lac, _, _, _) => lac
    case Gsm(_, lac, _, _) => lac
  }

  /** The cell identifier (LTE ci, WCDMA and GSM cid) of a recognised cell. */
  function CellIdentifier(cell: Cell): Int32
    requires Recognised(cell)
  {
    match cell
    case Lte(_, _, ci, _, _) => ci
    case Wcdma(_, _, cid, _, _) => cid
    case Gsm(_, _, cid, _) => cid
  }

  /**
   * Every recognised variant stores the reading time it was given, the operator from
   * API level P on and exactly "N/A" below it, and its area code and cell identifier
   * in the one `tac` and `cell_id` columns.
   */
  lemma CommonColumns(cell: Cell, sdk: int, eventTime: string)
    requires Recognised(cell)
    ensures var r := Normalize(cell, sdk, eventTime).value;
      && r.eventTime == eventTime
      && (sdk >= VersionP ==> r.plmnId == cell.networkOperator)
      && (sdk < VersionP ==> r.plmnId == Some(NotAvailable))
      && r.tac == AreaCode(cell) as int
      && r.cellId == CellIdentifier(cell) as int
  {
  }

  /**
   * The signal columns hold either exactly "N/A", which reads as no number, or the
   * decimal text of the platform's value: LTE RSRP and RSRQ from API level O on,
   * WCDMA RSCP always and Ec/N0 from API level R on, GSM RSSI always and never a
   * secondary value.
   */
  lemma SignalColumns(cell: Cell, sdk: int, eventTime: string)
    requires Recognised(cell)
    ensures ParseInt(NotAvailable) == None
    ensures var r := Normalize(cell, sdk, eventTime).value;
      match cell
      case Lte(_, _, _, rsrp, rsrq) =>
        && (sdk >= VersionO ==> ParseInt(r.rsrp) == Some(rsrp as int) && ParseInt(r.rsrq) == Some(rsrq as int))
        && (sdk < VersionO ==> r.rsrp == NotAvailable && r.rsrq == NotAvailable)
      case Wcdma(_, _, _, dbm, ecNo) =>
        && ParseInt(r.rsrp) == Some(dbm as int)
        && (sdk >= VersionR ==> ParseInt(r.rsrq) == Some(ecNo as int))
        && (sdk < VersionR ==> r.rsrq == NotAvailable)
      case Gsm(_, _, _, dbm) =>
        ParseInt(r.rsrp) == Some(dbm as int) && r.rsrq == NotAvailable
  {
    match cell
    case Lte(_, _, _, rsrp, rsrq) =>
      IntRoundTrip(rsrp as int);
      IntRoundTrip(rsrq as int);
    case Wcdma(_, _, _, dbm, ecNo) =>
      IntRoundTrip(dbm as int);
      IntRoundTrip(ecNo as int);
    case Gsm(_, _, _, dbm) =>
      IntRoundTrip(dbm as int);
  }

  /**
   * An LTE cell with tac 100, ci 5000, RSRP -95 and RSRQ -10 on operator "310260",
   * read on API level P or later.
   */
  lemma LteExample(sdk: int, eventTime: string)
    requires sdk >= VersionP
    ensures Normalize(Lte(Some("310260"), 100, 5000, -95, -10), sdk, eventTime)
      == Some(Row(eventTime, Some("310260"), 100, 5000, "-95", "-10", "4G (LTE)"))
  {
    assert DigitChar(9) == '9' && DigitChar(5) == '5' && DigitChar(1) == '1' && DigitChar(0) == '0';
    assert NatToString(95) == NatToString(9) + [DigitChar(5)] == "95";
    assert NatToString(10) == NatToString(1) + [DigitChar(0)] == "10";
    assert IntToString(-95) == "-" + NatToString(95) == "-95";
    assert IntToString(-10) == "-" + NatToString(10) == "-10";
  }

  // ---------------------------------------------------------------------------
  // The summary paragraph

  /** The captions the summary lines start with. */
  datatype Label =
    | EventTimeLabel | PlmnLabel | TacLabel | LacLabel | CellIdLabel
    | RsrpLabel | RsrqLabel | RscpLabel | EcNoLabel | RssiLabel
    | TechnologyLabel | UnknownTypeLabel

  function LabelText(caption: Label): string {
    match caption
    case EventTimeLabel => "Event Time: "
    case PlmnLabel => "PLMN ID: "
    case TacLabel => "TAC: "
    case LacLabel => "LAC: "
    case CellIdLabel => "Cell ID: "
    case RsrpLabel => "RSRP: "
    case RsrqLabel => "RSRQ: "
    case RscpLabel => "RSCP: "
    case EcNoLabel => "Ec/N0: "
    case RssiLabel => "RSSI: "
    case TechnologyLabel => "Cell Technology: "
    case UnknownTypeLabel => "Unknown Cell Info Type"
  }

  /** One appended line: its caption and the value written after it. */
  datatype Line = Line(caption: Label, value: string)

  function LineText(line: Line): string {
    LabelText(line.caption) + line.value
  }

  /** The lines one item appends to `cellInfoText`, without their line breaks. */
  function Lines(cell: Cell, sdk: int, eventTime: string): seq<Line> {
    match cell
    case Lte(op, tac, ci, rsrp, rsrq) =>
      [ Line(EventTimeLabel, eventTime),
        Line(PlmnLabel, Shown(PlmnId(op, sdk))),
        Line(TacLabel, IntToString(tac as int)),
        Line(CellIdLabel, IntToString(ci as int)),
        Line(RsrpLabel, GatedSignal(rsrp, sdk, VersionO)),
        Line(RsrqLabel, GatedSignal(rsrq, sdk, VersionO)),
        Line(TechnologyLabel, TechnologyLte) ]
    case Wcdma(op, lac, cid, dbm, ecNo) =>
      [ Line(EventTimeLabel, eventTime),
        Line(PlmnLabel, Shown(PlmnId(op, sdk))),
        Line(LacLabel, IntToString(lac as int)),
        Line(CellIdLabel, IntToString(cid as int)),
        Line(RscpLabel, IntToString(dbm as int)),
        Line(EcNoLabel, GatedSignal(ecNo, sdk, VersionR)),
        Line(TechnologyLabel, TechnologyWcdma) ]
    case Gsm(op, lac, cid, dbm) =>
      [ Line(EventTimeLabel, eventTime),
        Line(PlmnLabel, Shown(PlmnId(op, sdk))),
        Line(LacLabel, IntToString(lac as int)),
        Line(CellIdLabel, IntToString(cid as int)),
        Line(RssiLabel, IntToString(dbm as int)),
        Line(TechnologyLabel, TechnologyGsm) ]
    case Other =>
      [ Line(UnknownTypeLabel, "") ]
  }

  /** Each line followed by a line break. */
  function Joined(lines: seq<Line>): string
    decreases |lines|
  {
    if lines == [] then "" else Joined(lines[..|lines| - 1]) + LineText(lines[|lines| - 1]) + "\n"
  }

  /** The lines, each ended by a line break, then an empty line. */
  function Paragraph(lines: seq<Line>): string {
    Joined(lines) + "\n"
  }

  /**
   * The text one item appends to `cellInfoText`: its lines, each ended by a line
   * break, then an empty line that separates it from the next item.
   */
  function Render(cell: Cell, sdk: int, eventTime: string): (s: string)
    ensures 2 <= |s| && s[|s| - 2] == '\n' && s[|s| - 1] == '\n'
  {
    var ls := Lines(cell, sdk, eventTime);
    assert Joined(ls) == Joined(ls[..|ls| - 1]) + LineText(ls[|ls| - 1]) + "\n";
    Paragraph(ls)
  }

  /**
   * The paragraph of the LTE cell of `LteExample`, read on API level P or later,
   * line by line.
   */
  lemma LteParagraph(sdk: int, eventTime: string)
    requires sdk >= VersionP
    ensures Render(Lte(Some("310260"), 100, 5000, -95, -10), sdk, eventTime)
      == "Event Time: " + eventTime + "\n"
       + "PLMN ID: 310260\n"
       + "TAC: 100\n"
       + "Cell ID: 5000\n"
       + "RSRP: -95\n"
       + "RSRQ: -10\n"
       + "Cell Technology: 4G (LTE)\n"
       + "\n"
  {
    var ls := Lines(Lte(Some("310260"), 100, 5000, -95, -10), sdk, eventTime);
    LteExampleLines(sdk, eventTime);
    assert ls[..0] == [];
    JoinedStep(ls, 0);
    assert Joined(ls[..1]) == "Event Time: " + eventTime + "\n";
    LteExampleTexts();
    JoinedStep(ls, 1);
    JoinedStep(ls, 2);
    JoinedStep(ls, 3);
    JoinedStep(ls, 4);
    JoinedStep(ls, 5);
    assert Joined(ls) == Joined(ls[..6]) + (LineText(ls[6]) + "\n");
  }

  /** The text of each line of the `LteExample` paragraph after the first. */
  lemma LteExampleTexts()
    ensures LineText(Line(PlmnLabel, "310260")) + "\n" == "PLMN ID: 310260\n"
    ensures LineText(Line(TacLabel, "100")) + "\n" == "TAC: 100\n"
    ensures LineText(Line(CellIdLabel, "5000")) + "\n" == "Cell ID: 5000\n"
    ensures LineText(Line(RsrpLabel, "-95")) + "\n" == "RSRP: -95\n"
    ensures LineText(Line(RsrqLabel, "-10")) + "\n" == "RSRQ: -10\n"
    ensures LineText(Line(TechnologyLabel, "4G (LTE)")) + "\n" == "Cell Technology: 4G (LTE)\n"
  {
  }

  /** The lines of the `LteExample` cell, with its values as the row stores them. */
  lemma LteExampleLines(sdk: int, eventTime: string)
    requires sdk >= VersionP
    ensures Lines(Lte(Some("310260"), 100, 5000, -95, -10), sdk, eventTime)
      == [ Line(EventTimeLabel, eventTime), Line(PlmnLabel, "310260"),
           Line(TacLabel, "100"), Line(CellIdLabel, "5000"), Line(RsrpLabel, "-95"),
           Line(RsrqLabel, "-10"), Line(TechnologyLabel, "4G (LTE)") ]
  {
    LteExample(sdk, eventTime);
    assert DigitChar(1) == '1' && DigitChar(5) == '5' && DigitChar(0) == '0';
    assert NatToString(10) == NatToString(1) + [DigitChar(0)] == "10";
    assert NatToString(100) == NatToString(10) + [DigitChar(0)] == "100";
    assert NatToString(50) == NatToString(5) + [DigitChar(0)] == "50";
    assert NatToString(500) == NatToString(50) + [DigitChar(0)] == "500";
    assert NatToString(5000) == NatToString(500) + [DigitChar(0)] == "5000";
  }

  /** One more line adds its text and a line break. */
  lemma JoinedStep(ls: seq<Line>, i: nat)
    requires i < |ls|
    ensures Joined(ls[..i + 1]) == Joined(ls[..i]) + (LineText(ls[i]) + "\n")
  {
    assert ls[..i + 1][..i] == ls[..i];
  }

  /** An unhandled variant appends exactly "Unknown Cell Info Type\n\n". */
  lemma UnknownParagraph(sdk: int, eventTime: string)
    ensures Render(Other, sdk, eventTime) == "Unknown Cell Info Type\n\n"
  {
    var ls := Lines(Other, sdk, eventTime);
    assert LineText(ls[0]) == "Unknown Cell Info Type";
    assert Joined(ls) == Joined([]) + LineText(ls[0]) + "\n";
  }

  function AreaLabel(cell: Cell): Label {
    if cell.Lte? then TacLabel else LacLabel
  }

  function PrimaryLabel(cell: Cell): Label {
    match cell
    case Lte(_, _, _, _, _) => RsrpLabel
    case Wcdma(_, _, _, _, _) => RscpLabel
    case _ => RssiLabel
  }

  function SecondaryLabel(cell: Cell): Label {
    if cell.Lte? then RsrqLabel else EcNoLabel
  }

  /**
   * What the paragraph shows is what the row stores: the same event time, the PLMN
   * as a template renders it, the same area code, cell id and signal texts, and the
   * same technology.  GSM has one line fewer: no secondary-signal line.
   */
  lemma ShownMatchesStored(cell: Cell, sdk: int, eventTime: string)
    requires Recognised(cell)
    ensures var r := Normalize(cell, sdk, eventTime).value;
      var ls := Lines(cell, sdk, eventTime);
      && |ls| == (if cell.Gsm? then 6 else 7)
      && ls[0] == Line(EventTimeLabel, r.eventTime)
      && ls[1] == Line(PlmnLabel, Shown(r.plmnId))
      && ls[2] == Line(AreaLabel(cell), IntToString(r.tac))
      && ls[3] == Line(CellIdLabel, IntToString(r.cellId))
      && ls[4] == Line(PrimaryLabel(cell), r.rsrp)
      && (!cell.Gsm? ==> ls[5] == Line(SecondaryLabel(cell), r.rsrq))
      && ls[|ls| - 1] == Line(TechnologyLabel, r.technology)
  {
  }

  // ---------------------------------------------------------------------------
  // Line structure of the text

  function Occurrences(c: char, s: string): nat
    decreases |s|
  {
    if s == [] then 0 else Occurrences(c, s[..|s| - 1]) + (if s[|s| - 1] == c then 1 else 0)
  }

  predicate SingleLine(s: string) {
    forall i :: 0 <= i < |s| ==> s[i] != '\n'
  }

  lemma {:induction false} OccurrencesAppend(c: char, a: string, b: string)
    ensures Occurrences(c, a + b) == Occurrences(c, a) + Occurrences(c, b)
    decreases |b|
  {
    if b == [] {
      assert a + b == a;
    } else {
      var b' := b[..|b| - 1];
      assert (a + b)[..|a + b| - 1] == a + b';
      assert (a + b)[|a + b| - 1] == b[|b| - 1];
      OccurrencesAppend(c, a, b');
    }
  }

  lemma {:induction false} SingleLineHasNoBreak(s: string)
    requires SingleLine(s)
    ensures Occurrences('\n', s) == 0
    decreases |s|
  {
    if s != [] {
      SingleLineHasNoBreak(s[..|s| - 1]);
    }
  }

  predicate LinesAreSingle(lines: seq<Line>) {
    forall i :: 0 <= i < |lines| ==> SingleLine(lines[i].value)
  }

  lemma LabelIsSingle(caption: Label)
    ensures SingleLine(LabelText(caption))
  {
  }

  /** A paragraph of `n` lines whose values hold no line break has `n + 1` line breaks. */
  lemma {:induction false} ParagraphBreaks(lines: seq<Line>)
    requires LinesAreSingle(lines)
    ensures Occurrences('\n', Joined(lines)) == |lines|
    ensures Occurrences('\n', Paragraph(lines)) == |lines| + 1
    decreases |lines|
  {
    if lines != [] {
      var init := lines[..|lines| - 1];
      var last := lines[|lines| - 1];
      ParagraphBreaks(init);
      LabelIsSingle(last.caption);
      SingleLineHasNoBreak(LabelText(last.caption) + last.value);
      OccurrencesAppend('\n', Joined(init), LineText(last));
      OccurrencesAppend('\n', Joined(init) + LineText(last), "\n");
    }
    OccurrencesAppend('\n', Joined(lines), "\n");
  }

  lemma DecimalSingleLine(n: int)
    ensures SingleLine(IntToString(n))
  {
    var s := IntToString(n);
    forall i | 0 <= i < |s| ensures s[i] != '\n' {
      if n < 0 && i > 0 {
        assert s[i] == s[1..][i - 1];
      }
    }
  }

  lemma GatedSingleLine(value: Int32, sdk: int, since: int)
    ensures SingleLine(GatedSignal(value, sdk, since))
  {
    DecimalSingleLine(value as int);
  }

  /** The values on the lines every recognised variant has. */
  lemma IdentityValuesAreSingle(cell: Cell, sdk: int, eventTime: string)
    requires Recognised(cell) && SingleLine(eventTime)
    requires cell.networkOperator.Some? ==> SingleLine(cell.networkOperator.value)
    ensures SingleLine(Shown(PlmnId(cell.networkOperator, sdk)))
    ensures SingleLine(IntToString(AreaCode(cell) as int))
    ensures SingleLine(IntToString(CellIdentifier(cell) as int))
  {
    DecimalSingleLine(AreaCode(cell) as int);
    DecimalSingleLine(CellIdentifier(cell) as int);
  }

  lemma LteValuesAreSingle(cell: Cell, sdk: int, eventTime: string)
    requires cell.Lte? && SingleLine(eventTime)
    requires cell.networkOperator.Some? ==> SingleLine(cell.networkOperator.value)
    ensures LinesAreSingle(Lines(cell, sdk, eventTime))
  {
    IdentityValuesAreSingle(cell, sdk, eventTime);
    GatedSingleLine(cell.rsrp, sdk, VersionO);
    GatedSingleLine(cell.rsrq, sdk, VersionO);
  }

  lemma WcdmaValuesAreSingle(cell: Cell, sdk: int, eventTime: string)
    requires cell.Wcdma? && SingleLine(eventTime)
    requires cell.networkOperator.Some? ==> SingleLine(cell.networkOperator.value)
    ensures LinesAreSingle(Lines(cell, sdk, eventTime))
  {
    IdentityValuesAreSingle(cell, sdk, eventTime);
    DecimalSingleLine(cell.dbm as int);
    GatedSingleLine(cell.ecNo, sdk, VersionR);
  }

  lemma GsmValuesAreSingle(cell: Cell, sdk: int, eventTime: string)
    requires cell.Gsm? && SingleLine(eventTime)
    requires cell.networkOperator.Some? ==> SingleLine(cell.networkOperator.value)
    ensures LinesAreSingle(Lines(cell, sdk, eventTime))
  {
    IdentityValuesAreSingle(cell, sdk, eventTime);
    DecimalSingleLine(cell.dbm as int);
  }

  /** Every value shown is a single line when the reading time and operator name are. */
  lemma ValuesAreSingle(cell: Cell, sdk: int, eventTime: string)
    requires SingleLine(eventTime)
    requires Recognised(cell) && cell.networkOperator.Some? ==> SingleLine(cell.networkOperator.value)
    ensures LinesAreSingle(Lines(cell, sdk, eventTime))
  {
    match cell
    case Lte(_, _, _, _, _) => LteValuesAreSingle(cell, sdk, eventTime);
    case Wcdma(_, _, _, _, _) => WcdmaValuesAreSingle(cell, sdk, eventTime);
    case Gsm(_, _, _, _) => GsmValuesAreSingle(cell, sdk, eventTime);
    case Other =>
  }

  /**
   * When the reading time and the operator name are single lines, an LTE or WCDMA
   * paragraph holds 8 line breaks (seven lines and a blank one), a GSM paragraph 7,
   * and the unknown-variant paragraph 2.
   */
  lemma RenderBreaks(cell: Cell, sdk: int, eventTime: string)
    requires SingleLine(eventTime)
    requires Recognised(cell) && cell.networkOperator.Some? ==> SingleLine(cell.networkOperator.value)
    ensures Occurrences('\n', Render(cell, sdk, eventTime)) ==
      match cell
      case Lte(_, _, _, _, _) => 8
      case Wcdma(_, _, _, _, _) => 8
      case Gsm(_, _, _, _) => 7
      case Other => 2
  {
    ValuesAreSingle(cell, sdk, eventTime);
    ParagraphBreaks(Lines(cell, sdk, eventTime));
  }
}
