/** The tax tool (`add-tax.py`): it cuts the fee lines out of each history
    file after the grand-total marker, keeps the gateways it supports, turns
    each fee into a tax record dated the following day, groups the records
    by gateway and sets every gateway up once before entering its records.
    Also its AM/PM rule for the time picker and its byte-order-mark stripping. */
module Tax {
  import opened Options
  import opened Strings
  import opened Calendar
  import opened OrderedGroups
  import opened FeeMatcher
  import opened Seqs

  // ---- the supported gateways and the setup step ----

  /** The one supported name that is not typed as itself during setup. */
  const BankAccountGateway := "MOHAMMED AMEER ABBAS"

  /** The gateways whose fee lines become tax records. */
  const Supported: set<string> := {
    "XYPAY", "SKPAY", "YTPAY", "OSPAY", "SIMPLYPAY", "VADERPAY",
    "PASSPAY", "MULTIPAY", "U9PAY", "BOMBAYPAY", "EPAY",
    BankAccountGateway, "Test", "Test2", "BOPAY", "XCPAY"
  }

  /** The name the setup step types into the gateway field, per gateway. */
  const GatewayMap: map<string, string> := map[
    "XYPAY" := "XYPAY", "XCPAY" := "XCPAY", "SKPAY" := "SKPAY",
    "YTPAY" := "YTPAY", "OSPAY" := "OSPAY", "SIMPLYPAY" := "SIMPLYPAY",
    "VADERPAY" := "VADERPAY", "PASSPAY" := "PASSPAY", "MULTIPAY" := "MULTIPAY",
    "U9PAY" := "U9PAY", "BOMBAYPAY" := "BOMBAYPAY", "EPAY" := "EPAY",
    BankAccountGateway := "Karnataka Bank 2", "Test" := "Test",
    "Test2" := "Test2", "BOPAY" := "BOPAY"
  ]

  /** What the setup step for gateway `g` types into the gateway field; `None`
      when the map has no entry and the step types nothing. Every supported
      gateway has an entry, under its own name except for the bank account. */
  function SetupTarget(g: string): (t: Option<string>)
    ensures t.Some? <==> g in Supported
    ensures t.Some? ==> t.value == if g == BankAccountGateway then "Karnataka Bank 2" else g
  {
    if g in GatewayMap then Some(GatewayMap[g]) else None
  }

  // ---- one fee line into one tax record ----

  /** The record the tool builds for one fee line. `amount` is the fee text
      with its commas removed, which is what `float` reads; `datetime` is the
      day after the fee's date (midnight, with `hour` and `minute` "00"). */
  datatype TaxRecord = TaxRecord(
    gateway: string, orderId: string, amount: string, taxDate: string,
    datetime: Date, hour: string, minute: string,
    bankReference: string, remarks: string, labelText: string)

  /** What one match becomes: passed over (an unsupported gateway), a failure
      that abandons the rest of the file, or a record. */
  datatype Outcome = Skipped | Failed | Made(record: TaxRecord)

  /** `float` accepts the comma-free amount text exactly when it holds a digit:
      the pattern only lets digits and at most one point through. */
  predicate HasDigit(s: string) {
    exists i :: 0 <= i < |s| && IsDigit(s[i])
  }

  /** `TAX-<gateway>-<LABEL>-<ddmmyyyy>` */
  function OrderId(gateway: string, labelText: string, d: Date): string {
    "TAX-" + gateway + "-" + UpperStr(labelText) + "-" + FormatDMYCompact(d)
  }

  /** `Interest Charge <label> <dd/mm>` with the label in the given case. */
  function Reference(labelText: string, d: Date): string {
    "Interest Charge " + labelText + " " + FormatDM(d)
  }

  /** The body of the loop over one file's matches. */
  function Derive(m: FeeMatch): (o: Outcome)
    ensures o.Skipped? <==> m.gateway !in Supported
    ensures o.Failed? <==> (m.gateway in Supported
      && (!HasDigit(RemoveAll(m.amount, ",")) || ParseDMY(m.date).None?
          || ParseDMY(m.date) == Some(Date(31, 12, 9999))))
    ensures o.Made? ==> var r := o.record;
      && r.gateway == m.gateway && r.labelText == m.tag && r.taxDate == m.date
      && ParseDMY(m.date).Some? && Valid(r.datetime)
      && Ordinal(r.datetime) == Ordinal(ParseDMY(m.date).value) + 1
      && ',' !in r.amount && HasDigit(r.amount) && r.amount == RemoveAll(m.amount, ",")
      && r.hour == "00" && r.minute == "00"
      && r.orderId == OrderId(m.gateway, m.tag, ParseDMY(m.date).value)
      && r.bankReference == Reference(TitleStr(m.tag), ParseDMY(m.date).value)
      && r.remarks == Reference(UpperStr(m.tag), ParseDMY(m.date).value)
  {
    if m.gateway !in Supported then Skipped
    else
      var amount := RemoveAll(m.amount, ",");
      RemoveCharSpec(m.amount, ',');
      if !HasDigit(amount) then Failed
      else match ParseDMY(m.date)
        case None => Failed
        case Some(d) =>
          match AddOneDay(d)
          case None => Failed
          case Some(next) =>
            Made(TaxRecord(m.gateway, OrderId(m.gateway, m.tag, d), amount, m.date,
              next, "00", "00",
              Reference(TitleStr(m.tag), d), Reference(UpperStr(m.tag), d), m.tag))
  }

  /** The fee line `(depo) pg SKPAY 29/07/2025 | Total Fee: Rs 3739.20`
      becomes this record, entered on 30/07/2025 at 00:00. */
  lemma DeriveExample()
    ensures Derive(FeeMatch("depo", "SKPAY", "29/07/2025", "3739.20"))
      == Made(TaxRecord("SKPAY", "TAX-SKPAY-DEPO-29072025", "3739.20", "29/07/2025",
           Date(30, 7, 2025), "00", "00",
           "Interest Charge Depo 29/07", "Interest Charge DEPO 29/07", "depo"))
  {
    ExampleDate();
    ExampleTexts();
    assert "SKPAY" in Supported;
  }

  lemma ExampleDate()
    ensures ParseDMY("29/07/2025") == Some(Date(29, 7, 2025))
    ensures AddOneDay(Date(29, 7, 2025)) == Some(Date(30, 7, 2025))
  {
    var d := Date(29, 7, 2025);
    ExamplePads();
    assert FormatDMY(d) == "29/07/2025";
    ParseFormatDMY(d);
  }

  lemma ExamplePads()
    ensures PadNat(29, 2) == "29" && PadNat(7, 2) == "07" && PadNat(2025, 4) == "2025"
  {
    ExampleYear();
    assert NatToString(29) == NatToString(2) + [DigitChar(9)];
    assert NatToString(29) == "29";
    assert Zeros(1) == "0";
  }

  lemma ExampleYear()
    ensures NatToString(2025) == "2025"
  {
    assert NatToString(20) == NatToString(2) + [DigitChar(0)] == "20";
    assert NatToString(202) == NatToString(20) + [DigitChar(2)] == "202";
    assert NatToString(2025) == NatToString(202) + [DigitChar(5)];
  }

  lemma ExampleTexts()
    ensures RemoveAll("3739.20", ",") == "3739.20"
    ensures OrderId("SKPAY", "depo", Date(29, 7, 2025)) == "TAX-SKPAY-DEPO-29072025"
    ensures Reference(TitleStr("depo"), Date(29, 7, 2025)) == "Interest Charge Depo 29/07"
    ensures Reference(UpperStr("depo"), Date(29, 7, 2025)) == "Interest Charge DEPO 29/07"
  {
    ExampleAmount();
    ExampleOrderId();
    ExampleReferences();
  }

  lemma ExampleOrderId()
    ensures OrderId("SKPAY", "depo", Date(29, 7, 2025)) == "TAX-SKPAY-DEPO-29072025"
  {
    ExampleDates();
    ExampleCases();
    OrderIdOf("SKPAY", "depo", "DEPO", Date(29, 7, 2025), "29072025");
    ExampleJoins();
  }

  lemma ExampleJoins()
    ensures "TAX-" + "SKPAY" + "-" + "DEPO" + "-" + "29072025" == "TAX-SKPAY-DEPO-29072025"
    ensures "Interest Charge " + "Depo" + " " + "29/07" == "Interest Charge Depo 29/07"
    ensures "Interest Charge " + "DEPO" + " " + "29/07" == "Interest Charge DEPO 29/07"
  {
  }

  lemma OrderIdOf(gateway: string, labelText: string, upper: string, d: Date, dmy: string)
    requires UpperStr(labelText) == upper && FormatDMYCompact(d) == dmy
    ensures OrderId(gateway, labelText, d) == "TAX-" + gateway + "-" + upper + "-" + dmy
  {
  }

  lemma ExampleReferences()
    ensures Reference(TitleStr("depo"), Date(29, 7, 2025)) == "Interest Charge Depo 29/07"
    ensures Reference(UpperStr("depo"), Date(29, 7, 2025)) == "Interest Charge DEPO 29/07"
  {
    ExampleDates();
    ExampleCases();
    ReferenceOf("Depo", Date(29, 7, 2025), "29/07");
    ReferenceOf("DEPO", Date(29, 7, 2025), "29/07");
    ExampleJoins();
  }

  lemma ReferenceOf(labelText: string, d: Date, dm: string)
    requires FormatDM(d) == dm
    ensures Reference(labelText, d) == "Interest Charge " + labelText + " " + dm
  {
  }

  lemma ExampleDates()
    ensures FormatDMYCompact(Date(29, 7, 2025)) == "29072025"
    ensures FormatDM(Date(29, 7, 2025)) == "29/07"
  {
    ExamplePads();
  }

  lemma ExampleCases()
    ensures TitleStr("depo") == "Depo" && UpperStr("depo") == "DEPO"
  {
    var t, u := TitleStr("depo"), UpperStr("depo");
    assert t[0] == Upper('d') && t[1] == Lower('e') && t[2] == Lower('p') && t[3] == Lower('o');
    assert u[0] == Upper('d') && u[1] == Upper('e') && u[2] == Upper('p') && u[3] == Upper('o');
  }

  lemma ExampleAmount()
    ensures RemoveAll("3739.20", ",") == "3739.20"
  {
    RemoveCharSpec("3739.20", ',');
  }

  // ---- one file ----

  /** The loop over one file's outcomes: a skipped match is passed over, and
      the first failure ends the file; the records made before it stay. */
  function Collect(os: seq<Outcome>): (rs: seq<TaxRecord>)
    ensures |rs| <= |os|
    ensures forall r :: r in rs ==> Made(r) in os
  {
    if os == [] then []
    else match os[0]
      case Skipped => Collect(os[1..])
      case Failed => []
      case Made(r) => [r] + Collect(os[1..])
  }

  /** The records of every outcome that makes one, failures or not. */
  function Records(os: seq<Outcome>): seq<TaxRecord> {
    if os == [] then []
    else (if os[0].Made? then [os[0].record] else []) + Records(os[1..])
  }

  /** The position of the first failure, or the length when none fails. */
  function FirstFailure(os: seq<Outcome>): (k: nat)
    ensures k <= |os|
    ensures forall i :: 0 <= i < k ==> !os[i].Failed?
    ensures k < |os| ==> os[k].Failed?
  {
    if os == [] || os[0].Failed? then 0 else 1 + FirstFailure(os[1..])
  }

  /** A file yields the records of the matches before its first failure. */
  lemma {:induction false} CollectBeforeFailure(os: seq<Outcome>)
    ensures Collect(os) == Records(os[..FirstFailure(os)])
  {
    if os != [] && !os[0].Failed? {
      var k := FirstFailure(os);
      CollectBeforeFailure(os[1..]);
      assert os[..k][0] == os[0];
      assert os[..k][1..] == os[1..][..k - 1];
    }
  }

  /** Without a failure or a skip every match becomes a record, in order. */
  lemma {:induction false} CollectAllMade(os: seq<Outcome>)
    requires forall i :: 0 <= i < |os| ==> os[i].Made?
    ensures |Collect(os)| == |os|
    ensures forall i :: 0 <= i < |os| ==> Collect(os)[i] == os[i].record
  {
    if os != [] {
      assert os[0].Made?;
      forall i | 0 <= i < |os[1..]| ensures os[1..][i].Made? {
        assert os[1..][i] == os[i + 1];
      }
      CollectAllMade(os[1..]);
      var rs := Collect(os);
      assert rs == [os[0].record] + Collect(os[1..]);
      forall i | 0 < i < |os| ensures rs[i] == os[i].record {
        assert os[1..][i - 1] == os[i];
      }
    }
  }

  /** The records of one list of matches. */
  function FileRecords(ms: seq<FeeMatch>): seq<TaxRecord> {
    Collect(Map(ms, Derive))
  }

  /** The records of one history file: nothing when it is missing or has no
      grand total section, else the records read from the section. */
  function FileTaxRecords(content: Option<string>): seq<TaxRecord> {
    match content
    case None => []
    case Some(c) =>
      match Section(c)
      case None => []
      case Some(sec) => FileRecords(FindAll(sec, 0))
  }

  /** `parse_and_execute`'s reading phase: the records of the files in turn. */
  function TaxRecords(files: seq<Option<string>>): seq<TaxRecord> {
    if files == [] then [] else FileTaxRecords(files[0]) + TaxRecords(files[1..])
  }

  /** The files are read independently: reading two lists of files one after
      the other gives the records of the first list and then the second. */
  lemma {:induction false} TaxRecordsAppend(a: seq<Option<string>>, b: seq<Option<string>>)
    ensures TaxRecords(a + b) == TaxRecords(a) + TaxRecords(b)
  {
    if a != [] {
      assert (a + b)[0] == a[0] && (a + b)[1..] == a[1..] + b;
      TaxRecordsAppend(a[1..], b);
      AppendAssoc(FileTaxRecords(a[0]), TaxRecords(a[1..]), TaxRecords(b));
    } else {
      assert a + b == b;
    }
  }

  /** A history file without the grand total marker adds nothing. */
  lemma UnmarkedFileAddsNothing(c: string)
    requires !Contains(c, Marker)
    ensures FileTaxRecords(Some(c)) == []
  {
    NoMarkerNoSection(c);
  }

  /** Every record carries a supported gateway that the pattern read, so a
      name of letters and digits only. */
  lemma {:induction false} TaxRecordGateways(files: seq<Option<string>>)
    ensures forall r :: r in TaxRecords(files) ==>
      r.gateway in Supported && |r.gateway| > 0 && AllIn(r.gateway, Alnum)
  {
    if files != [] {
      TaxRecordGateways(files[1..]);
      if files[0].Some? && Section(files[0].value).Some? {
        var sec := Section(files[0].value).value;
        FindAllShaped(sec, 0);
        FileRecordsShaped(FindAll(sec, 0));
      }
    }
  }

  lemma FileRecordsShaped(ms: seq<FeeMatch>)
    requires forall i :: 0 <= i < |ms| ==> Shaped(ms[i])
    ensures forall r :: r in FileRecords(ms) ==>
      r.gateway in Supported && |r.gateway| > 0 && AllIn(r.gateway, Alnum)
  {
    var os := Map(ms, Derive);
    forall r | r in FileRecords(ms)
      ensures r.gateway in Supported && |r.gateway| > 0 && AllIn(r.gateway, Alnum)
    {
      var j :| 0 <= j < |os| && os[j] == Made(r);
      assert Derive(ms[j]) == Made(r) && Shaped(ms[j]);
    }
  }

  // ---- what the fields say ----

  /** The bank reference and the remarks name the same charge and differ only
      in the case of the label. */
  lemma ReferenceMatchesRemarks(tag: string, d: Date)
    ensures |Reference(TitleStr(tag), d)| == |Reference(UpperStr(tag), d)|
    ensures UpperStr(Reference(TitleStr(tag), d)) == UpperStr(Reference(UpperStr(tag), d))
  {
    TitleUpperAgree(tag);
    SameUpper("Interest Charge ", TitleStr(tag), UpperStr(tag), " " + FormatDM(d));
  }

  /** Title case and upper case agree once upper-cased. */
  lemma TitleUpperAgree(tag: string)
    ensures |TitleStr(tag)| == |UpperStr(tag)|
    ensures forall i :: 0 <= i < |tag| ==> Upper(TitleStr(tag)[i]) == Upper(UpperStr(tag)[i])
  {
    forall i | 0 <= i < |tag| ensures Upper(TitleStr(tag)[i]) == Upper(UpperStr(tag)[i]) {
      var t := TitleFrom(tag, false);
      assert t[i] == (if (if i == 0 then false else IsLetter(tag[i - 1])) then Lower(tag[i]) else Upper(tag[i]));
      UpperAbsorbs(tag[i]);
    }
  }

  /** Upper-casing forgets any earlier change of case. */
  lemma UpperAbsorbs(c: char)
    ensures Upper(Lower(c)) == Upper(c) && Upper(Upper(c)) == Upper(c)
  {
  }

  /** Texts that agree up to letter case in their middle part agree up to
      letter case as a whole. */
  lemma SameUpper(p: string, t: string, u: string, q: string)
    requires |t| == |u| && forall i :: 0 <= i < |t| ==> Upper(t[i]) == Upper(u[i])
    ensures |p + t + q| == |p + u + q| && UpperStr(p + t + q) == UpperStr(p + u + q)
  {
    var a, b := p + t + q, p + u + q;
    forall i | 0 <= i < |a| ensures UpperStr(a)[i] == UpperStr(b)[i] {
      if |p| <= i < |p| + |t| {
        assert a[i] == t[i - |p|] && b[i] == u[i - |p|];
      } else {
        assert a[i] == b[i];
      }
    }
  }

  /** Two order IDs are equal only for the same gateway, the same label up to
      case and the same day, given gateway names without a dash. */
  lemma OrderIdInjective(g1: string, l1: string, d1: Date, g2: string, l2: string, d2: Date)
    requires Lacks(g1, '-') && Lacks(g2, '-') && InRange(d1) && InRange(d2)
    requires OrderId(g1, l1, d1) == OrderId(g2, l2, d2)
    ensures g1 == g2 && UpperStr(l1) == UpperStr(l2) && d1 == d2
  {
    CompactWidth(d1);
    CompactWidth(d2);
    IdParts(g1, UpperStr(l1), FormatDMYCompact(d1), g2, UpperStr(l2), FormatDMYCompact(d2));
    CompactInjective(d1, d2);
  }

  /** `TAX-g-u-c` splits back into its parts when `g` has no dash and the
      date part has a fixed width. */
  lemma IdParts(g1: string, u1: string, c1: string, g2: string, u2: string, c2: string)
    requires Lacks(g1, '-') && Lacks(g2, '-') && |c1| == |c2|
    requires "TAX-" + g1 + "-" + u1 + "-" + c1 == "TAX-" + g2 + "-" + u2 + "-" + c2
    ensures g1 == g2 && u1 == u2 && c1 == c2
  {
    var y1, y2 := "TAX-" + g1 + "-" + u1, "TAX-" + g2 + "-" + u2;
    SplitEnd(y1 + "-", c1, y2 + "-", c2);
    SplitEnd(y1, "-", y2, "-");
    AppendAssoc("TAX-" + g1, "-", u1);
    AppendAssoc("TAX-", g1, "-" + u1);
    AppendAssoc("TAX-" + g2, "-", u2);
    AppendAssoc("TAX-", g2, "-" + u2);
    SplitFront("TAX-", g1 + ("-" + u1), g2 + ("-" + u2));
    AppendAssoc(g1, "-", u1);
    AppendAssoc(g2, "-", u2);
    SplitAtDash(g1, u1, g2, u2);
  }

  lemma SplitEnd(a1: string, b1: string, a2: string, b2: string)
    requires a1 + b1 == a2 + b2 && |b1| == |b2|
    ensures a1 == a2 && b1 == b2
  {
    assert a1 == (a1 + b1)[..|a1|] && a2 == (a2 + b2)[..|a2|];
    assert b1 == (a1 + b1)[|a1|..] && b2 == (a2 + b2)[|a2|..];
  }

  lemma SplitFront(p: string, a: string, b: string)
    requires p + a == p + b
    ensures a == b
  {
    assert a == (p + a)[|p|..] && b == (p + b)[|p|..];
  }

  /** A dash-free first part is recovered from `first-rest`. */
  lemma SplitAtDash(a1: string, b1: string, a2: string, b2: string)
    requires Lacks(a1, '-') && Lacks(a2, '-') && a1 + "-" + b1 == a2 + "-" + b2
    ensures a1 == a2 && b1 == b2
  {
    var s, t := a1 + "-" + b1, a2 + "-" + b2;
    assert s[|a1|] == '-' && forall k :: 0 <= k < |a1| ==> s[k] == a1[k];
    assert t[|a2|] == '-' && forall k :: 0 <= k < |a2| ==> t[k] == a2[k];
    assert |a1| == |a2|;
    assert a1 == s[..|a1|] && a2 == s[..|a2|];
    assert b1 == s[|a1| + 1..] && b2 == s[|a2| + 1..];
  }

  lemma CompactWidth(d: Date)
    requires InRange(d)
    ensures |FormatDMYCompact(d)| == 8
  {
    PadWidth(d.day, 2);
    PadWidth(d.month, 2);
    PadWidth(d.year, 4);
  }

  /** `%d%m%Y` tells days apart. */
  lemma CompactInjective(d1: Date, d2: Date)
    requires InRange(d1) && InRange(d2)
    requires FormatDMYCompact(d1) == FormatDMYCompact(d2)
    ensures d1 == d2
  {
    PadWidth(d1.day, 2);
    PadWidth(d1.month, 2);
    PadWidth(d1.year, 4);
    PadWidth(d2.day, 2);
    PadWidth(d2.month, 2);
    PadWidth(d2.year, 4);
    FieldsEqual(PadNat(d1.day, 2), PadNat(d1.month, 2), PadNat(d1.year, 4),
      PadNat(d2.day, 2), PadNat(d2.month, 2), PadNat(d2.year, 4));
  }

  lemma FieldsEqual(a1: string, b1: string, c1: string, a2: string, b2: string, c2: string)
    requires |a1| == |a2| && |b1| == |b2| && |c1| == |c2|
    requires a1 + b1 + c1 == a2 + b2 + c2
    ensures a1 == a2 && b1 == b2 && c1 == c2
  {
    SplitEnd(a1 + b1, c1, a2 + b2, c2);
    SplitEnd(a1, b1, a2, b2);
  }

  // ---- grouping and the once-per-gateway setup ----

  /** One step of the browser work: setting a gateway up, or entering a record. */
  datatype Action = Setup(gateway: string, target: Option<string>) | Enter(record: TaxRecord)

  function GatewayOf(r: TaxRecord): string { r.gateway }

  function Entries(rs: seq<TaxRecord>): seq<Action> {
    if rs == [] then [] else [Enter(rs[0])] + Entries(rs[1..])
  }

  /** The loop over the grouped records: a gateway not yet in `performed` is
      set up first, then each of its records is entered. */
  function Perform(gs: seq<Group<TaxRecord>>, performed: set<string>): seq<Action> {
    if gs == [] then []
    else
      var g := gs[0].key;
      (if g in performed then [] else [Setup(g, SetupTarget(g))])
      + Entries(gs[0].items) + Perform(gs[1..], performed + {g})
  }

  /** `parse_and_execute`'s browser phase for the records read. */
  function Plan(records: seq<TaxRecord>): seq<Action> {
    Perform(GroupBy(records, GatewayOf), {})
  }

  /** The gateways set up, in order. */
  function SetupsOf(acts: seq<Action>): seq<string> {
    if acts == [] then []
    else (if acts[0].Setup? then [acts[0].gateway] else []) + SetupsOf(acts[1..])
  }

  /** The records entered, in order. */
  function EnteredOf(acts: seq<Action>): seq<TaxRecord> {
    if acts == [] then []
    else (if acts[0].Enter? then [acts[0].record] else []) + EnteredOf(acts[1..])
  }

  /** A run of actions in which every record is entered only after its
      gateway has been set up (or was set up before the run, in `ready`). */
  predicate SetUpFirst(acts: seq<Action>, ready: set<string>) {
    if acts == [] then true
    else if acts[0].Setup? then SetUpFirst(acts[1..], ready + {acts[0].gateway})
    else acts[0].record.gateway in ready && SetUpFirst(acts[1..], ready)
  }

  /** Each gateway is set up exactly once, in the order its first record was
      read; every record is entered, grouped by gateway with each gateway's
      records in reading order; and no record is entered before its
      gateway's setup. */
  lemma PlanFacts(records: seq<TaxRecord>)
    ensures SetupsOf(Plan(records)) == FirstSeen(MapKey(records, GatewayOf))
    ensures Distinct(SetupsOf(Plan(records)))
    ensures multiset(EnteredOf(Plan(records))) == multiset(records)
    ensures forall h :: Having(EnteredOf(Plan(records)), GatewayOf, h) == Having(records, GatewayOf, h)
    ensures SetUpFirst(Plan(records), {})
  {
    var gs := GroupBy(records, GatewayOf);
    GroupByWellKeyed(records, GatewayOf);
    PerformSetups(gs, {});
    PerformEntered(gs, {});
    PerformSetUpFirst(gs, {});
    forall h ensures Having(Flat(gs), GatewayOf, h) == Having(records, GatewayOf, h) {
      HavingFlat(gs, GatewayOf, h);
    }
  }

  /** Every setup the browser runs types the gateway's own name: the pattern
      reads no name with a space, so the bank-account entry of the map is
      never used. */
  lemma NoBankAccountSetup(files: seq<Option<string>>)
    ensures forall i :: 0 <= i < |Plan(TaxRecords(files))| && Plan(TaxRecords(files))[i].Setup? ==>
      Plan(TaxRecords(files))[i].target == Some(Plan(TaxRecords(files))[i].gateway)
  {
    var rs := TaxRecords(files);
    TaxRecordGateways(files);
    forall i | 0 <= i < |rs| ensures SetupTarget(rs[i].gateway) == Some(rs[i].gateway) {
      assert rs[i] in rs;
      AlnumNotBankAccount(rs[i].gateway);
    }
    PlanTargets(rs);
  }

  lemma AlnumNotBankAccount(g: string)
    requires AllIn(g, Alnum)
    ensures g != BankAccountGateway
  {
    var b := BankAccountGateway;
    assert |b| > 8 && !InClass(b[8], Alnum);
  }

  lemma PlanTargets(rs: seq<TaxRecord>)
    requires forall i :: 0 <= i < |rs| ==> SetupTarget(rs[i].gateway) == Some(rs[i].gateway)
    ensures forall i :: 0 <= i < |Plan(rs)| && Plan(rs)[i].Setup? ==>
      Plan(rs)[i].target == Some(Plan(rs)[i].gateway)
  {
    var gs := GroupBy(rs, GatewayOf);
    forall i | 0 <= i < |gs| ensures SetupTarget(gs[i].key) == Some(gs[i].key) {
      assert gs[i].key in Keys(gs);
      assert gs[i].key in MapKey(rs, GatewayOf);
    }
    PerformTargets(gs, {});
  }

  lemma {:induction false} PerformTargets(gs: seq<Group<TaxRecord>>, performed: set<string>)
    requires forall i :: 0 <= i < |gs| ==> SetupTarget(gs[i].key) == Some(gs[i].key)
    ensures forall i :: 0 <= i < |Perform(gs, performed)| && Perform(gs, performed)[i].Setup? ==>
      Perform(gs, performed)[i].target == Some(Perform(gs, performed)[i].gateway)
  {
    if gs != [] {
      var g := gs[0].key;
      var head := if g in performed then [] else [Setup(g, SetupTarget(g))];
      var acts := Perform(gs, performed);
      var rest := Perform(gs[1..], performed + {g});
      PerformTargets(gs[1..], performed + {g});
      EntriesAreEntries(gs[0].items);
      var e := Entries(gs[0].items);
      assert acts == head + e + rest;
      forall i | 0 <= i < |acts| && acts[i].Setup? ensures acts[i].target == Some(acts[i].gateway) {
        if i < |head| {
          assert acts[i] == head[i];
        } else if |head| + |e| <= i {
          assert acts[i] == rest[i - |head| - |e|];
        }
      }
    }
  }

  lemma {:induction false} EntriesAreEntries(rs: seq<TaxRecord>)
    ensures |Entries(rs)| == |rs|
    ensures forall i :: 0 <= i < |rs| ==> Entries(rs)[i] == Enter(rs[i])
  {
    if rs != [] {
      EntriesAreEntries(rs[1..]);
    }
  }

  lemma {:induction false} SetupsAppend(a: seq<Action>, b: seq<Action>)
    ensures SetupsOf(a + b) == SetupsOf(a) + SetupsOf(b)
  {
    if a != [] {
      var head := if a[0].Setup? then [a[0].gateway] else [];
      assert (a + b)[0] == a[0] && (a + b)[1..] == a[1..] + b;
      SetupsAppend(a[1..], b);
      AppendAssoc(head, SetupsOf(a[1..]), SetupsOf(b));
    } else {
      assert a + b == b;
    }
  }

  lemma {:induction false} EnteredAppend(a: seq<Action>, b: seq<Action>)
    ensures EnteredOf(a + b) == EnteredOf(a) + EnteredOf(b)
  {
    if a != [] {
      var head := if a[0].Enter? then [a[0].record] else [];
      assert (a + b)[0] == a[0] && (a + b)[1..] == a[1..] + b;
      EnteredAppend(a[1..], b);
      AppendAssoc(head, EnteredOf(a[1..]), EnteredOf(b));
    } else {
      assert a + b == b;
    }
  }

  lemma {:induction false} EntriesOnly(rs: seq<TaxRecord>)
    ensures SetupsOf(Entries(rs)) == [] && EnteredOf(Entries(rs)) == rs
  {
    if rs != [] {
      EntriesOnly(rs[1..]);
    }
  }

  /** With distinct keys, none set up before, each group's gateway is set up once. */
  lemma {:induction false} PerformSetups(gs: seq<Group<TaxRecord>>, performed: set<string>)
    requires DistinctKeys(gs)
    requires forall i :: 0 <= i < |gs| ==> gs[i].key !in performed
    ensures SetupsOf(Perform(gs, performed)) == Keys(gs)
  {
    if gs != [] {
      var g := gs[0].key;
      var e := Entries(gs[0].items);
      var rest := Perform(gs[1..], performed + {g});
      assert Keys(gs[1..]) == Keys(gs)[1..];
      forall i | 0 <= i < |gs[1..]| ensures gs[1..][i].key !in performed + {g} {
        assert Keys(gs)[0] != Keys(gs)[i + 1];
      }
      PerformSetups(gs[1..], performed + {g});
      EntriesOnly(gs[0].items);
      SetupsAppend([Setup(g, SetupTarget(g))] + e, rest);
      SetupsAppend([Setup(g, SetupTarget(g))], e);
      assert Keys(gs) == [g] + Keys(gs[1..]);
    }
  }

  /** The records entered are the groups' items, group after group. */
  lemma {:induction false} PerformEntered(gs: seq<Group<TaxRecord>>, performed: set<string>)
    ensures EnteredOf(Perform(gs, performed)) == Flat(gs)
  {
    if gs != [] {
      var g := gs[0].key;
      var head := if g in performed then [] else [Setup(g, SetupTarget(g))];
      var e := Entries(gs[0].items);
      var rest := Perform(gs[1..], performed + {g});
      PerformEntered(gs[1..], performed + {g});
      EntriesOnly(gs[0].items);
      EnteredAppend(head + e, rest);
      EnteredAppend(head, e);
      assert EnteredOf(head) == [];
    }
  }

  /** Entering records of an already set up gateway keeps the order sound. */
  lemma {:induction false} EntriesSetUpFirst(rs: seq<TaxRecord>, g: string, ready: set<string>, rest: seq<Action>)
    requires g in ready && forall i :: 0 <= i < |rs| ==> rs[i].gateway == g
    requires SetUpFirst(rest, ready)
    ensures SetUpFirst(Entries(rs) + rest, ready)
  {
    if rs == [] {
      assert Entries(rs) + rest == rest;
    } else {
      forall i | 0 <= i < |rs[1..]| ensures rs[1..][i].gateway == g {
        assert rs[1..][i] == rs[i + 1];
      }
      EntriesSetUpFirst(rs[1..], g, ready, rest);
      EnterThen(rs[0], Entries(rs[1..]) + rest, ready);
      AppendAssoc([Enter(rs[0])], Entries(rs[1..]), rest);
    }
  }

  lemma EnterThen(r: TaxRecord, rest: seq<Action>, ready: set<string>)
    requires r.gateway in ready && SetUpFirst(rest, ready)
    ensures SetUpFirst([Enter(r)] + rest, ready)
  {
    assert ([Enter(r)] + rest)[1..] == rest;
  }

  lemma SetupThen(g: string, t: Option<string>, rest: seq<Action>, ready: set<string>)
    requires SetUpFirst(rest, ready + {g})
    ensures SetUpFirst([Setup(g, t)] + rest, ready)
  {
    assert ([Setup(g, t)] + rest)[1..] == rest;
  }

  /** Dropping the first group keeps the items under their keys. */
  lemma WellKeyedTail<T>(gs: seq<Group<T>>, key: T -> string)
    requires gs != [] && WellKeyed(gs, key)
    ensures WellKeyed(gs[1..], key)
    ensures forall j :: 0 <= j < |gs[0].items| ==> key(gs[0].items[j]) == gs[0].key
  {
    forall i, j | 0 <= i < |gs[1..]| && 0 <= j < |gs[1..][i].items|
      ensures key(gs[1..][i].items[j]) == gs[1..][i].key
    {
      assert gs[1..][i] == gs[i + 1];
    }
  }

  /** One step of the loop: the first group's setup when it is new, its
      entries, then the rest. */
  lemma PerformCons(gs: seq<Group<TaxRecord>>, performed: set<string>)
    requires gs != []
    ensures var g, rest := gs[0].key, Perform(gs[1..], performed + {gs[0].key});
      Perform(gs, performed) ==
        if g in performed then Entries(gs[0].items) + rest
        else [Setup(g, SetupTarget(g))] + (Entries(gs[0].items) + rest)
  {
    var g := gs[0].key;
    var pre := if g in performed then [] else [Setup(g, SetupTarget(g))];
    var head, body := Entries(gs[0].items), Perform(gs[1..], performed + {g});
    assert Perform(gs, performed) == pre + head + body;
    JoinAfter(pre, head, body);
  }

  /** Nothing or one step in front of two joined runs of steps. */
  lemma JoinAfter<A>(pre: seq<A>, head: seq<A>, body: seq<A>)
    requires |pre| <= 1
    ensures pre + head + body == if pre == [] then head + body else [pre[0]] + (head + body)
  {
    AppendAssoc(pre, head, body);
    if pre != [] {
      assert pre == [pre[0]];
    }
  }

  lemma {:induction false} PerformSetUpFirst(gs: seq<Group<TaxRecord>>, performed: set<string>)
    requires WellKeyed(gs, GatewayOf)
    ensures SetUpFirst(Perform(gs, performed), performed)
  {
    if gs != [] {
      var g := gs[0].key;
      var ready := performed + {g};
      var rest := Perform(gs[1..], ready);
      WellKeyedTail(gs, GatewayOf);
      PerformSetUpFirst(gs[1..], ready);
      EntriesSetUpFirst(gs[0].items, g, ready, rest);
      var body := Entries(gs[0].items) + rest;
      PerformCons(gs, performed);
      if g in performed {
        assert ready == performed;
      } else {
        SetupThen(g, SetupTarget(g), body, performed);
      }
    }
  }

  /** Collecting a gateway's items from the flattened groups gives its group. */
  lemma {:induction false} HavingFlat(gs: seq<Group<TaxRecord>>, key: TaxRecord -> string, h: string)
    requires DistinctKeys(gs) && WellKeyed(gs, key)
    ensures Having(Flat(gs), key, h) == ItemsOf(gs, h)
  {
    if gs != [] {
      var k := gs[0].key;
      assert Keys(gs) == [k] + Keys(gs[1..]);
      assert DistinctKeys(gs[1..]) by {
        forall i, j | 0 <= i < j < |Keys(gs[1..])| ensures Keys(gs[1..])[i] != Keys(gs[1..])[j] {
          assert Keys(gs)[i + 1] != Keys(gs)[j + 1];
        }
      }
      assert WellKeyed(gs[1..], key) by {
        forall i, j | 0 <= i < |gs[1..]| && 0 <= j < |gs[1..][i].items|
          ensures key(gs[1..][i].items[j]) == gs[1..][i].key
        {
          assert gs[1..][i] == gs[i + 1];
        }
      }
      HavingFlat(gs[1..], key, h);
      HavingAppend(gs[0].items, Flat(gs[1..]), key, h);
      forall x | x in gs[0].items ensures key(x) == k {
        var j :| 0 <= j < |gs[0].items| && gs[0].items[j] == x;
      }
      HavingUniform(gs[0].items, key, k, h);
      if k == h {
        assert h !in Keys(gs[1..]);
      }
    }
  }

  // ---- the time picker's AM/PM toggle ----

  /** The meridiem the picker must show for an hour of the record. */
  function Meridiem(hour: int): (t: string)
    ensures t == "AM" || t == "PM"
    ensures t == "AM" <==> hour < 12
  {
    if hour < 12 then "AM" else "PM"
  }

  /** `int(record["Hour"])` for a text of decimal digits; `None` where `int`
      raises. Signs, surrounding spaces and underscores are not modelled. */
  function HourValue(text: string): (h: Option<nat>)
    ensures h.Some? <==> |text| > 0 && AllDigits(text)
  {
    if |text| > 0 && AllDigits(text) then Some(DigitsValue(text)) else None
  }

  /** What the toggle shows, as the program compares it: stripped and upper-cased. */
  function Shown(text: string): string { UpperStr(Strip(text)) }

  /** The toggle is clicked exactly when what it shows is not the target. */
  predicate Clicks(text: string, hour: int) {
    Shown(text) != Meridiem(hour)
  }

  /** The picker's toggle: a click switches between AM and PM. */
  function Toggled(shown: string): string {
    if shown == "AM" then "PM" else "AM"
  }

  /** When the toggle shows AM or PM (in any case, with any surrounding
      space), the picker ends up on the hour's meridiem, with at most one click. */
  lemma ToggleReachesMeridiem(text: string, hour: int)
    requires Shown(text) == "AM" || Shown(text) == "PM"
    ensures (if Clicks(text, hour) then Toggled(Shown(text)) else Shown(text)) == Meridiem(hour)
    ensures Clicks(text, hour) <==> Shown(text) != (if hour < 12 then "AM" else "PM")
  {
    if Shown(text) == "AM" {
      assert "AM" != "PM";
    }
  }

  /** An hour written as zeros only reads as hour 0, which is entered as AM. */
  lemma ZeroHourIsAM(k: nat)
    requires k > 0
    ensures HourValue(Zeros(k)) == Some(0) && Meridiem(HourValue(Zeros(k)).value) == "AM"
  {
  }

  /** Every tax record is entered with hour "00", so as an AM time. */
  lemma MidnightIsAM(m: FeeMatch)
    requires Derive(m).Made?
    ensures HourValue(Derive(m).record.hour) == Some(0)
    ensures Meridiem(HourValue(Derive(m).record.hour).value) == "AM"
  {
    DoubleZero();
  }

  lemma DoubleZero()
    ensures HourValue("00") == Some(0) && Meridiem(HourValue("00").value) == "AM"
  {
    ZeroHourIsAM(2);
    assert Zeros(2) == Zeros(1) + "0" == Zeros(0) + "0" + "0";
    assert Zeros(2) == "00";
  }

  // ---- byte-order marks ----

  const Bom: char := '\U{FEFF}'

  /** `s.lstrip(c)`: `s` without its leading run of `c`. */
  function StripLeading(s: string, c: char): (r: string)
    ensures |r| <= |s| && r == s[|s| - |r|..]
    ensures r == [] || r[0] != c
    ensures forall i :: 0 <= i < |s| - |r| ==> s[i] == c
  {
    if |s| > 0 && s[0] == c then StripLeading(s[1..], c) else s
  }

  /** `remove_bom`: the line without its leading byte-order marks. */
  function RemoveBom(line: string): (r: string)
    ensures |r| <= |line| && r == line[|line| - |r|..]
    ensures r == [] || r[0] != Bom
    ensures forall i :: 0 <= i < |line| - |r| ==> line[i] == Bom
  {
    if |line| > 0 && line[0] == Bom then StripLeading(line, Bom) else line
  }

  function Boms(k: nat): (s: string)
    ensures |s| == k && forall i :: 0 <= i < k ==> s[i] == Bom
  {
    if k == 0 then [] else [Bom] + Boms(k - 1)
  }

  /** Any number of marks in front of a text that does not start with one are
      removed, and nothing else is. */
  lemma RemoveBomOf(k: nat, t: string)
    requires t == [] || t[0] != Bom
    ensures RemoveBom(Boms(k) + t) == t
  {
    var line := Boms(k) + t;
    assert line[k..] == t;
  }

  /** Removing the marks twice removes nothing more. */
  lemma RemoveBomIdempotent(line: string)
    ensures RemoveBom(RemoveBom(line)) == RemoveBom(line)
  {
    RemoveBomOf(0, RemoveBom(line));
    assert Boms(0) + RemoveBom(line) == RemoveBom(line);
  }
}
