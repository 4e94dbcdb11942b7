/**
 * Which lines the `status` command shows for a service, from the service
 * information payload. Every nested field the source guards with a presence
 * test is optional here; numeric values are carried raw, their unit
 * conversion is left abstract, and dates are rendered by `FormatDatetime`.
 */
module Status {
  import opened Wrappers
  import opened Responses
  import opened Text
  import Phone

  /** The package cadences that carry quotas. */
  const Cadences: set<string> := {"monthly", "weekly", "daily"}

  datatype OffpeakTerms = OffpeakTerms(enabled: bool, quotaGb: string, startTime: string, endTime: string)

  datatype Package = Package(name: string, status: string, cadence: string, quota: string, offpeak: Option<OffpeakTerms>)

  datatype QuotaBalance = QuotaBalance(amount: Option<string>, validDate: Option<string>)

  /** A non-empty off-peak balance (an absent or empty one is `None` in `Balances`). */
  datatype OffpeakBalance = OffpeakBalance(amount: string, validDate: Option<string>)

  datatype CreditBalance = CreditBalance(amount: Option<string>, validDate: string)

  datatype Balances = Balances(quota: Option<QuotaBalance>, offpeak: Option<OffpeakBalance>, credit: Option<CreditBalance>)

  /** The service information payload; `package` is `None` when absent or empty. */
  datatype ServiceInfo = ServiceInfo(status: string, package: Option<Package>, balances: Option<Balances>)

  datatype StatusLine =
    | Header(serviceName: string, serviceStatus: string)
    | PackageLine(name: string, packageStatus: string)
    | QuotaLine(amountBytes: string, packageQuota: string)
    | ExpirationLine(date: string)
    | Blank
    | OffpeakQuotaLine(amountBytes: string, packageQuotaGb: string)
    | OffpeakTimeLine(from: string, to: string)
    | PhoneUnsupported
    | DumpWritten
    | DumpFailed
    | BalanceLine(amountCents: string)
    | Footer

  /** `str.isdigit()` on the quota amount: non-empty and all digits. */
  predicate IsDigitText(s: string) {
    s != [] && forall i :: 0 <= i < |s| ==> Phone.IsAsciiDigit(s[i])
  }

  function QuotaLines(pkg: Package, quota: QuotaBalance): seq<StatusLine> {
    (if quota.amount.Some? && IsDigitText(quota.amount.value) then [QuotaLine(quota.amount.value, pkg.quota)] else [])
    + (if quota.validDate.Some? then [ExpirationLine(FormatDatetime(quota.validDate.value))] else [])
  }

  /** The off-peak block is shown when the package enables off-peak terms and the balances report off-peak usage. */
  predicate OffpeakShown(pkg: Package, b: Balances) {
    pkg.offpeak.Some? && pkg.offpeak.value.enabled && b.offpeak.Some?
  }

  /** Its expiration line is shown unless the quota expires at the very same stamp. */
  predicate OffpeakExpirationShown(b: Balances)
    requires b.offpeak.Some?
  {
    b.offpeak.value.validDate.Some? && (b.quota.None? || b.quota.value.validDate != b.offpeak.value.validDate)
  }

  function OffpeakLines(pkg: Package, b: Balances): seq<StatusLine> {
    if OffpeakShown(pkg, b) then
      var terms, usage := pkg.offpeak.value, b.offpeak.value;
      [Blank,
       OffpeakQuotaLine(usage.amount, terms.quotaGb),
       OffpeakTimeLine(RemoveSecondsFromTime(terms.startTime), RemoveSecondsFromTime(terms.endTime))]
      + (if OffpeakExpirationShown(b) then [ExpirationLine(FormatDatetime(usage.validDate.value))] else [])
    else []
  }

  /** The internet block; `None` is the KeyError of reading absent balances. */
  function InternetLines(pkg: Package, balances: Option<Balances>): Option<seq<StatusLine>> {
    if pkg.cadence !in Cadences then Some([])
    else if balances.None? then None
    else
      var b := balances.value;
      Some((if b.quota.Some? then QuotaLines(pkg, b.quota.value) else []) + OffpeakLines(pkg, b) + [Blank])
  }

  /** The phone block: an unsupported-notice and the outcome of dumping the raw payload to a side file. */
  function PhoneLines(pkg: Package, dumpWritten: bool): seq<StatusLine> {
    if pkg.cadence in Cadences then [PhoneUnsupported, if dumpWritten then DumpWritten else DumpFailed, Blank]
    else []
  }

  function PackageLines(info: ServiceInfo, groupType: string, dumpWritten: bool): Option<seq<StatusLine>> {
    if info.package.None? then Some([])
    else
      var pkg := info.package.value;
      var head := [PackageLine(pkg.name, pkg.status)];
      if groupType == "internet" then
        match InternetLines(pkg, info.balances)
        case None => None
        case Some(block) => Some(head + block)
      else if groupType == "phone" then Some(head + PhoneLines(pkg, dumpWritten))
      else Some(head)
  }

  /** The credit amount is present and non-empty. */
  predicate CreditShown(balances: Option<Balances>) {
    balances.Some? && balances.value.credit.Some? && balances.value.credit.value.amount.Some?
    && balances.value.credit.value.amount.value != ""
  }

  /** The balance lines, shown when the credit amount is present and non-empty. */
  function CreditLines(balances: Option<Balances>): seq<StatusLine> {
    if CreditShown(balances)
    then
      var credit := balances.value.credit.value;
      [BalanceLine(credit.amount.value), ExpirationLine(FormatDatetime(credit.validDate))]
    else []
  }

  /**
   * The lines of `status`, between a header naming the service and a footer.
   * The only failure is an internet package with a quota cadence and no
   * balances at all, which the source reads without a presence test.
   */
  function StatusLines(serviceName: string, info: ServiceInfo, groupType: string, dumpWritten: bool): (r: Result<seq<StatusLine>>)
    ensures r.Err? <==> info.package.Some? && groupType == "internet"
                        && info.package.value.cadence in Cadences && info.balances.None?
    ensures r.Err? ==> r.failure == Crash
    ensures r.Ok? ==> |r.value| >= 2 && r.value[0] == Header(serviceName, info.status)
                      && r.value[|r.value| - 1] == Footer
  {
    match PackageLines(info, groupType, dumpWritten)
    case None => Err(Crash)
    case Some(block) => Ok([Header(serviceName, info.status)] + block + CreditLines(info.balances) + [Footer])
  }

  /** The package part of the lines of a well-formed internet payload with a quota cadence. */
  predicate InternetCadence(info: ServiceInfo, groupType: string) {
    groupType == "internet" && info.package.Some? && info.package.value.cadence in Cadences && info.balances.Some?
  }

  predicate HasQuotaLine(lines: seq<StatusLine>) {
    exists l :: l in lines && l.QuotaLine?
  }

  predicate HasOffpeakQuotaLine(lines: seq<StatusLine>) {
    exists l :: l in lines && l.OffpeakQuotaLine?
  }

  /** The quota line appears exactly for an internet quota cadence whose quota amount is all digits. */
  lemma QuotaLineShown(name: string, info: ServiceInfo, groupType: string, dumpWritten: bool)
    requires StatusLines(name, info, groupType, dumpWritten).Ok?
    ensures HasQuotaLine(StatusLines(name, info, groupType, dumpWritten).value) <==>
              InternetCadence(info, groupType) && info.balances.value.quota.Some?
              && info.balances.value.quota.value.amount.Some?
              && IsDigitText(info.balances.value.quota.value.amount.value)
  {
    var lines := StatusLines(name, info, groupType, dumpWritten).value;
    var block := PackageLines(info, groupType, dumpWritten).value;
    assert lines == [Header(name, info.status)] + block + CreditLines(info.balances) + [Footer];
    if InternetCadence(info, groupType) {
      var pkg, b := info.package.value, info.balances.value;
      assert block == [PackageLine(pkg.name, pkg.status)]
        + ((if b.quota.Some? then QuotaLines(pkg, b.quota.value) else []) + OffpeakLines(pkg, b) + [Blank]);
      if b.quota.Some? && b.quota.value.amount.Some? && IsDigitText(b.quota.value.amount.value) {
        assert QuotaLine(b.quota.value.amount.value, pkg.quota) in lines;
      }
    }
  }

  predicate HasBalanceLine(lines: seq<StatusLine>) {
    exists l :: l in lines && l.BalanceLine?
  }

  /** The package block never holds a balance line. */
  lemma NoBalanceInPackageLines(info: ServiceInfo, groupType: string, dumpWritten: bool)
    requires PackageLines(info, groupType, dumpWritten).Some?
    ensures !HasBalanceLine(PackageLines(info, groupType, dumpWritten).value)
  {
    if info.package.Some? && groupType == "internet" && info.package.value.cadence in Cadences {
      var pkg, b := info.package.value, info.balances.value;
      var quota := if b.quota.Some? then QuotaLines(pkg, b.quota.value) else [];
      assert forall l :: l in quota ==> !l.BalanceLine?;
      assert forall l :: l in OffpeakLines(pkg, b) ==> !l.BalanceLine?;
      assert PackageLines(info, groupType, dumpWritten).value
          == [PackageLine(pkg.name, pkg.status)] + (quota + OffpeakLines(pkg, b) + [Blank]);
    }
  }

  /**
   * Whatever the group type, the balance line appears exactly when the credit
   * amount is present and non-empty, and it shows that amount.
   */
  lemma BalanceLineShown(name: string, info: ServiceInfo, groupType: string, dumpWritten: bool)
    requires StatusLines(name, info, groupType, dumpWritten).Ok?
    ensures HasBalanceLine(StatusLines(name, info, groupType, dumpWritten).value) <==> CreditShown(info.balances)
    ensures CreditShown(info.balances) ==>
              BalanceLine(info.balances.value.credit.value.amount.value) in StatusLines(name, info, groupType, dumpWritten).value
  {
    var lines := StatusLines(name, info, groupType, dumpWritten).value;
    var block := PackageLines(info, groupType, dumpWritten).value;
    assert lines == [Header(name, info.status)] + block + CreditLines(info.balances) + [Footer];
    NoBalanceInPackageLines(info, groupType, dumpWritten);
    if CreditShown(info.balances) {
      assert CreditLines(info.balances)[0] in lines;
    } else {
      assert CreditLines(info.balances) == [];
    }
  }

  /** The off-peak block appears exactly when the package enables off-peak terms and the balances report off-peak usage. */
  lemma OffpeakBlockShown(name: string, info: ServiceInfo, groupType: string, dumpWritten: bool)
    requires StatusLines(name, info, groupType, dumpWritten).Ok?
    ensures HasOffpeakQuotaLine(StatusLines(name, info, groupType, dumpWritten).value) <==>
              InternetCadence(info, groupType) && OffpeakShown(info.package.value, info.balances.value)
  {
    var lines := StatusLines(name, info, groupType, dumpWritten).value;
    var block := PackageLines(info, groupType, dumpWritten).value;
    assert lines == [Header(name, info.status)] + block + CreditLines(info.balances) + [Footer];
    if InternetCadence(info, groupType) {
      var pkg, b := info.package.value, info.balances.value;
      assert block == [PackageLine(pkg.name, pkg.status)]
        + ((if b.quota.Some? then QuotaLines(pkg, b.quota.value) else []) + OffpeakLines(pkg, b) + [Blank]);
      if OffpeakShown(pkg, b) {
        assert OffpeakLines(pkg, b)[1] in lines;
      }
    }
  }

  /**
   * When the off-peak usage expires at the same stamp as the quota, only the
   * quota's expiration line is shown in the package block.
   */
  lemma SharedExpirationShownOnce(info: ServiceInfo, groupType: string, dumpWritten: bool, stamp: string)
    requires InternetCadence(info, groupType) && OffpeakShown(info.package.value, info.balances.value)
    requires info.balances.value.quota.Some? && info.balances.value.quota.value.validDate == Some(stamp)
    requires info.balances.value.offpeak.value.validDate == Some(stamp)
    ensures var pkg, b := info.package.value, info.balances.value;
      PackageLines(info, groupType, dumpWritten) == Some(
        [PackageLine(pkg.name, pkg.status)]
        + QuotaLines(pkg, b.quota.value)
        + [Blank,
           OffpeakQuotaLine(b.offpeak.value.amount, pkg.offpeak.value.quotaGb),
           OffpeakTimeLine(RemoveSecondsFromTime(pkg.offpeak.value.startTime), RemoveSecondsFromTime(pkg.offpeak.value.endTime)),
           Blank])
  {
    var pkg, b := info.package.value, info.balances.value;
    assert !OffpeakExpirationShown(b);
    var offpeak := OffpeakLines(pkg, b);
    assert offpeak == [Blank,
      OffpeakQuotaLine(b.offpeak.value.amount, pkg.offpeak.value.quotaGb),
      OffpeakTimeLine(RemoveSecondsFromTime(pkg.offpeak.value.startTime), RemoveSecondsFromTime(pkg.offpeak.value.endTime))];
    assert InternetLines(pkg, info.balances) == Some(QuotaLines(pkg, b.quota.value) + offpeak + [Blank]);
    assert PackageLines(info, groupType, dumpWritten)
        == Some([PackageLine(pkg.name, pkg.status)] + (QuotaLines(pkg, b.quota.value) + offpeak + [Blank]));
    assert [PackageLine(pkg.name, pkg.status)] + (QuotaLines(pkg, b.quota.value) + offpeak + [Blank])
        == [PackageLine(pkg.name, pkg.status)] + QuotaLines(pkg, b.quota.value) + (offpeak + [Blank]);
    assert offpeak + [Blank] == [offpeak[0], offpeak[1], offpeak[2], Blank];
  }

  /**
   * The end-to-end case: a monthly internet package without off-peak terms,
   * a digit quota with an expiration, and no credit shows the header, the
   * package, one quota line, one expiration line, and the footer.
   */
  lemma MonthlyInternetWithoutOffpeak(name: string, info: ServiceInfo, amount: string, stamp: string)
    requires info.package.Some? && info.package.value.cadence == "monthly" && info.package.value.offpeak.None?
    requires info.balances == Some(Balances(Some(QuotaBalance(Some(amount), Some(stamp))), None, None))
    requires IsDigitText(amount)
    ensures var pkg := info.package.value;
      StatusLines(name, info, "internet", false) == Ok([
        Header(name, info.status),
        PackageLine(pkg.name, pkg.status),
        QuotaLine(amount, pkg.quota),
        ExpirationLine(FormatDatetime(stamp)),
        Blank,
        Footer])
  {
    var pkg, b := info.package.value, info.balances.value;
    assert "monthly" in Cadences;
    assert QuotaLines(pkg, b.quota.value) == [QuotaLine(amount, pkg.quota), ExpirationLine(FormatDatetime(stamp))];
    assert OffpeakLines(pkg, b) == [];
    assert CreditLines(info.balances) == [];
    assert PackageLines(info, "internet", false) == Some([PackageLine(pkg.name, pkg.status)]
      + ([QuotaLine(amount, pkg.quota), ExpirationLine(FormatDatetime(stamp))] + [] + [Blank]));
    assert StatusLines(name, info, "internet", false)
        == Ok([Header(name, info.status)] + PackageLines(info, "internet", false).value + [] + [Footer]);
    assert [Header(name, info.status)] + PackageLines(info, "internet", false).value + [] + [Footer]
        == [Header(name, info.status), PackageLine(pkg.name, pkg.status), QuotaLine(amount, pkg.quota),
            ExpirationLine(FormatDatetime(stamp)), Blank, Footer];
  }
}
