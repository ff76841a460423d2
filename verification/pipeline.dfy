/** The two programs end to end: the fee lines the crawler writes into its
    report become, in the tax tool, one tax record per gateway, for the day
    after the gateway's first transaction and for the gateway's total fee. */
module ReportToTax {
  import opened Options
  import opened Strings
  import opened Calendar
  import opened Money
  import opened OrderedGroups
  import opened Seqs
  import opened Crawler
  import opened Report
  import opened FeeMatcher
  import opened FeeRoundTrip
  import opened Tax

  /** The day of a group's first record, the day its fee line names. */
  function FirstDay(grp: Group<TxRecord>): Option<Date> {
    if grp.items == [] then None
    else match ParseTimestamp(grp.items[0].time)
      case None => None
      case Some(t) => Some(t.date)
  }

  /** A group the tax tool turns into a record: its fee line is read back, its
      gateway is supported, and the day after its date exists. */
  predicate Taxable(grp: Group<TxRecord>) {
    Readable(grp) && grp.key in Supported && FirstDay(grp) != Some(Date(31, 12, 9999))
  }

  /** `%.2f` of a fee that is not negative has digits and no comma. */
  lemma Fixed2Plain(c: Cents)
    requires c >= 0
    ensures ',' !in Fixed2(c) && HasDigit(Fixed2(c))
  {
    Fixed2Chars(c);
    var w, f := NatToString(Rupees(c)), TwoDigits(Paise(c));
    assert Fixed2(c) == w + "." + f;
    assert Fixed2(c)[0] == w[0] && IsDigit(w[0]);
  }

  /** `r` is the tax record for group `grp`: its gateway and total fee, dated
      the day after the group's first transaction. */
  predicate RecordFor(r: TaxRecord, grp: Group<TxRecord>) {
    && FirstDay(grp).Some?
    && r.gateway == grp.key && r.labelText == "wd"
    && ParseDecimal(r.amount) == Some(GroupFee(grp))
    && r.datetime == NextDay(FirstDay(grp).value)
  }

  /** One record per group, in order. */
  predicate RecordsFor(rs: seq<TaxRecord>, gs: seq<Group<TxRecord>>) {
    |rs| == |gs| && forall i :: 0 <= i < |gs| ==> RecordFor(rs[i], gs[i])
  }

  /** One group's fee line becomes a record for the group's gateway, the day
      after its first transaction and its total fee. */
  lemma TaxOfGroup(grp: Group<TxRecord>)
    requires Taxable(grp)
    ensures GroupMade(grp)
  {
    ReadOfFields(grp);
    var m := ReadOf(grp)[0];
    var d := FirstDay(grp).value;
    Fixed2Plain(GroupFee(grp));
    RemoveCharSpec(m.amount, ',');
    assert RemoveAll(m.amount, ",") == m.amount;
    var r := Derive(m).record;
    OrdinalInjective(r.datetime, NextDay(d));
  }

  /** The read-back is the groups' matches, joined. */
  lemma {:induction false} ReadBackFlatten(gs: seq<Group<TxRecord>>)
    ensures ReadBack(gs) == Flatten(gs, ReadOf)
  {
    if gs != [] {
      ReadBackFlatten(gs[1..]);
    }
  }

  /** The crawler's report, read by the tax tool: one record per gateway, in
      report order, each for the gateway's total fee and dated the day after
      the gateway's first transaction. */
  lemma ReportToTaxRecords(gs: seq<Group<TxRecord>>)
    requires !Contains(Concat(Blocks(gs)), Marker)
    requires forall i :: 0 <= i < |gs| ==> Taxable(gs[i])
    ensures RecordsFor(TaxRecords([Some(ReportText(gs))]), gs)
  {
    forall i | 0 <= i < |gs| ensures KnownShape(gs[i].key) {
      assert Readable(gs[i]);
    }
    ReportReadBack(gs);
    OneFile(ReportText(gs), ReadBack(gs));
    RecordsFromReadBack(gs);
  }

  /** A single file whose section holds the matches `ms`. */
  lemma OneFile(text: string, ms: seq<FeeMatch>)
    requires Section(text).Some? && FindAll(Section(text).value, 0) == ms
    ensures TaxRecords([Some(text)]) == FileRecords(ms)
  {
    assert [Some(text)][1..] == [];
    assert TaxRecords([Some(text)]) == FileRecords(ms) + [];
  }

  lemma RecordsFromReadBack(gs: seq<Group<TxRecord>>)
    requires forall i :: 0 <= i < |gs| ==> Taxable(gs[i])
    ensures RecordsFor(FileRecords(ReadBack(gs)), gs)
  {
    AllGroupsMade(gs);
    ReadBackRecords(gs);
  }

  /** When each group's line makes its record, the read-back yields them in order. */
  lemma ReadBackRecords(gs: seq<Group<TxRecord>>)
    requires forall i :: 0 <= i < |gs| ==> GroupMade(gs[i])
    ensures RecordsFor(FileRecords(ReadBack(gs)), gs)
  {
    OutcomesFor(gs);
    FileRecordsFor(ReadBack(gs), gs);
  }

  lemma AllGroupsMade(gs: seq<Group<TxRecord>>)
    requires forall i :: 0 <= i < |gs| ==> Taxable(gs[i])
    ensures forall i :: 0 <= i < |gs| ==> GroupMade(gs[i])
  {
    forall i | 0 <= i < |gs| ensures GroupMade(gs[i]) {
      TaxOfGroup(gs[i]);
    }
  }

  /** The group's fee line is read as one match, which makes its record. */
  predicate GroupMade(grp: Group<TxRecord>) {
    |ReadOf(grp)| == 1 && MadeRecordFor(Derive(ReadOf(grp)[0]), grp)
  }

  /** When each group's line makes its record, so does the read-back. */
  lemma OutcomesFor(gs: seq<Group<TxRecord>>)
    requires forall i :: 0 <= i < |gs| ==> GroupMade(gs[i])
    ensures MadeFor(Map(ReadBack(gs), Derive), gs)
  {
    FlattenPointwise(gs, ReadOf, Derive, MadeRecordFor);
    ReadBackFlatten(gs);
  }

  /** Outcome `i` made the record for group `i`, for every `i`. */
  predicate MadeFor(os: seq<Outcome>, gs: seq<Group<TxRecord>>) {
    |os| == |gs| && forall i :: 0 <= i < |gs| ==> MadeRecordFor(os[i], gs[i])
  }

  /** `o` made the record for `grp`. */
  predicate MadeRecordFor(o: Outcome, grp: Group<TxRecord>) {
    o.Made? && RecordFor(o.record, grp)
  }

  lemma FileRecordsFor(ms: seq<FeeMatch>, gs: seq<Group<TxRecord>>)
    requires MadeFor(Map(ms, Derive), gs)
    ensures RecordsFor(FileRecords(ms), gs)
  {
    CollectAllMade(Map(ms, Derive));
  }
}
