/**
 * The package listing of the `subscribe` command: the offers of every group
 * are numbered from 1, contiguously across groups, each followed by detail
 * lines that depend on the catalog's packages type and the group's cadence;
 * the number the user picks selects the offer listed under it.
 */
module Subscribe {
  import opened Wrappers
  import opened Responses
  import opened Text
  import Status

  /** One offer of the catalog: its id (as text), its title and its other fields. */
  datatype Offer = Offer(id: string, title: string, fields: map<string, string>)

  /** A group of offers sharing a cadence (`monthly`, `payg`, ...). */
  datatype OfferGroup = OfferGroup(cadence: string, packages: seq<Offer>)

  /** An offer together with the cadence of its group, in listing order. */
  datatype Entry = Entry(cadence: string, offer: Offer)

  datatype ListingLine = Title(number: nat, title: string) | Detail(caption: string, text: string) | Separator

  /** The listing result: the offer ids in listing order and the printed lines. */
  datatype Listed = Listed(choices: seq<string>, lines: seq<ListingLine>)

  function GroupEntries(g: OfferGroup): (r: seq<Entry>)
    ensures |r| == |g.packages|
    ensures forall i :: 0 <= i < |r| ==> r[i] == Entry(g.cadence, g.packages[i])
  {
    seq(|g.packages|, i requires 0 <= i < |g.packages| => Entry(g.cadence, g.packages[i]))
  }

  /** All offers of all groups, group after group. */
  function Entries(groups: seq<OfferGroup>): seq<Entry>
    decreases |groups|
  {
    if groups == [] then [] else Entries(groups[..|groups| - 1]) + GroupEntries(groups[|groups| - 1])
  }

  /** The offer ids in listing order (`choices`). */
  function Ids(entries: seq<Entry>): (ids: seq<string>)
    ensures |ids| == |entries|
    ensures forall i :: 0 <= i < |ids| ==> ids[i] == entries[i].offer.id
  {
    seq(|entries|, i requires 0 <= i < |entries| => entries[i].offer.id)
  }

  /**
   * The detail lines of one offer. `None` is the KeyError of a field the
   * source reads without a presence test. The MMS price line of a phone
   * pay-as-you-go offer shows the SMS price, as the source does.
   */
  function OfferDetails(isNumber: string -> bool, packagesType: string, e: Entry): (r: Option<seq<ListingLine>>)
    ensures r.Some? ==> forall l :: l in r.value ==> l.Detail?
    ensures packagesType != "internet" && packagesType != "phone" ==> r == Some([])
    ensures packagesType == "internet" && r.Some? ==>
              "speed" in e.offer.fields && |r.value| >= 1 && r.value[0] == Detail("Speed", AppendUnit(isNumber, e.offer.fields["speed"], "Mb/s"))
  {
    var f := e.offer.fields;
    if packagesType == "internet" then
      if "speed" !in f then None
      else
        var speed := [Detail("Speed", AppendUnit(isNumber, f["speed"], "Mb/s"))];
        if e.cadence in Status.Cadences then
          if "quota" in f && "price" in f
          then Some(speed + [Detail("Quota", AppendUnit(isNumber, f["quota"], "GiB")),
                             Detail("Price", AppendUnit(isNumber, f["price"], "LYD"))])
          else None
        else if e.cadence == "payg" then
          if "price_peak" in f then
            var peak := [Detail("Price", AppendUnit(isNumber, f["price_peak"], "LYD/GiB"))];
            if "price_off_peak" !in f then None
            else if f["price_peak"] == f["price_off_peak"] then Some(speed + peak)
            else if "off_peak_start_time" in f && "off_peak_end_time" in f then
              var caption := "Price Off-Peak (" + RemoveSecondsFromTime(f["off_peak_start_time"]) + " - "
                           + RemoveSecondsFromTime(f["off_peak_end_time"]) + ")";
              Some(speed + peak + [Detail(caption, AppendUnit(isNumber, f["price_off_peak"], "LYD/GiB"))])
            else None
          else if "price" in f then Some(speed + [Detail("Price", AppendUnit(isNumber, f["price"], "LYD/GiB"))])
          else None
        else Some(speed)
    else if packagesType == "phone" then
      if e.cadence in Status.Cadences then
        if "minutes_quota" in f && "sms_quota" in f && "mms_quota" in f && "gprs_quota" in f && "price" in f
        then Some([Detail("Calls", AppendUnit(isNumber, f["minutes_quota"], "Minutes")),
                   Detail("SMS's", f["sms_quota"]),
                   Detail("MMS's", f["mms_quota"]),
                   Detail("Internt", AppendUnit(isNumber, f["gprs_quota"], "MiB")),
                   Detail("Price", AppendUnit(isNumber, f["price"], "LYD"))])
        else None
      else if e.cadence == "payg" then
        if "calls_price" in f && "sms_price" in f
        then Some([Detail("Calls Price", AppendUnit(isNumber, f["calls_price"], "LYD/MIN")),
                   Detail("SMS Price", AppendUnit(isNumber, f["sms_price"], "LYD/MSG")),
                   Detail("MMS Price", AppendUnit(isNumber, f["sms_price"], "LYD/MSG"))])
        else None
      else Some([])
    else Some([])
  }

  /** The printed listing of `entries`: each offer's numbered title, its details and a blank line. */
  function Listing(isNumber: string -> bool, packagesType: string, entries: seq<Entry>): Option<seq<ListingLine>>
    decreases |entries|
  {
    if entries == [] then Some([])
    else
      var n := |entries|;
      match Listing(isNumber, packagesType, entries[..n - 1])
      case None => None
      case Some(prev) =>
        match OfferDetails(isNumber, packagesType, entries[n - 1])
        case None => None
        case Some(details) => Some(prev + [Title(n, entries[n - 1].offer.title)] + details + [Separator])
  }

  /** The numbered title lines of a listing, in order. */
  function Titles(lines: seq<ListingLine>): (r: seq<ListingLine>)
    ensures forall l :: l in r ==> l.Title?
    decreases |lines|
  {
    if lines == [] then []
    else Titles(lines[..|lines| - 1]) + (if lines[|lines| - 1].Title? then [lines[|lines| - 1]] else [])
  }

  lemma {:induction false} TitlesAppend(a: seq<ListingLine>, b: seq<ListingLine>)
    ensures Titles(a + b) == Titles(a) + Titles(b)
    decreases |b|
  {
    if b == [] {
      assert a + b == a;
    } else {
      var n := |b|;
      assert (a + b)[..|a + b| - 1] == a + b[..n - 1];
      assert (a + b)[|a + b| - 1] == b[n - 1];
      TitlesAppend(a, b[..n - 1]);
    }
  }

  lemma {:induction false} TitlesOfDetails(lines: seq<ListingLine>)
    requires forall l :: l in lines ==> l.Detail?
    ensures Titles(lines) == []
    decreases |lines|
  {
    if lines != [] {
      assert lines[|lines| - 1] in lines;
      TitlesOfDetails(lines[..|lines| - 1]);
    }
  }

  /** `titles` numbers the offers of `entries` 1, 2, ... in order. */
  predicate NumbersOffers(titles: seq<ListingLine>, entries: seq<Entry>) {
    |titles| == |entries| &&
    forall i :: 0 <= i < |entries| ==> titles[i] == Title(i + 1, entries[i].offer.title)
  }

  lemma NumbersOffersStep(titles: seq<ListingLine>, entries: seq<Entry>, e: Entry)
    requires NumbersOffers(titles, entries)
    ensures NumbersOffers(titles + [Title(|entries| + 1, e.offer.title)], entries + [e])
  {
  }

  /** The titles of one offer's block are just its numbered title. */
  lemma BlockTitles(prev: seq<ListingLine>, title: ListingLine, details: seq<ListingLine>)
    requires title.Title? && forall l :: l in details ==> l.Detail?
    ensures Titles(prev + [title] + details + [Separator]) == Titles(prev) + [title]
  {
    var withTitle := prev + [title];
    var withDetails := withTitle + details;
    TitlesAppend(prev, [title]);
    TitlesSingle(title);
    assert Titles(withTitle) == Titles(prev) + [title];
    TitlesAppend(withTitle, details);
    TitlesOfDetails(details);
    assert Titles(withDetails) == Titles(withTitle);
    TitlesAppend(withDetails, [Separator]);
    TitlesSingle(Separator);
  }

  lemma TitlesSingle(l: ListingLine)
    ensures Titles([l]) == if l.Title? then [l] else []
  {
    assert [l][..0] == [];
  }

  /**
   * The listing's title lines are exactly the offers' titles numbered 1, 2,
   * ... in listing order: number k shows the offer at position k-1.
   */
  lemma {:induction false} ListingNumbersOffers(isNumber: string -> bool, packagesType: string, entries: seq<Entry>)
    requires Listing(isNumber, packagesType, entries).Some?
    ensures NumbersOffers(Titles(Listing(isNumber, packagesType, entries).value), entries)
    decreases |entries|
  {
    if entries != [] {
      var n := |entries|;
      var init, e := entries[..n - 1], entries[n - 1];
      ListingLast(isNumber, packagesType, entries);
      var prev := Listing(isNumber, packagesType, init).value;
      ListingNumbersOffers(isNumber, packagesType, init);
      BlockTitles(prev, Title(n, e.offer.title), OfferDetails(isNumber, packagesType, e).value);
      NumbersOffersStep(Titles(prev), init, e);
      assert init + [e] == entries;
    }
  }

  /** A non-empty listing is the listing of all offers but the last, followed by the last offer's block. */
  lemma ListingLast(isNumber: string -> bool, packagesType: string, entries: seq<Entry>)
    requires entries != [] && Listing(isNumber, packagesType, entries).Some?
    ensures var n := |entries|;
      && Listing(isNumber, packagesType, entries[..n - 1]).Some?
      && OfferDetails(isNumber, packagesType, entries[n - 1]).Some?
      && Listing(isNumber, packagesType, entries).value
         == Listing(isNumber, packagesType, entries[..n - 1]).value + [Title(n, entries[n - 1].offer.title)]
            + OfferDetails(isNumber, packagesType, entries[n - 1]).value + [Separator]
  {
  }

  /** The listing exists exactly when every offer has the fields its detail lines read. */
  lemma {:induction false} ListingDefined(isNumber: string -> bool, packagesType: string, entries: seq<Entry>)
    ensures Listing(isNumber, packagesType, entries).Some? <==>
              forall i :: 0 <= i < |entries| ==> OfferDetails(isNumber, packagesType, entries[i]).Some?
    decreases |entries|
  {
    if entries != [] {
      var n := |entries|;
      ListingDefined(isNumber, packagesType, entries[..n - 1]);
      assert forall i :: 0 <= i < n - 1 ==> entries[..n - 1][i] == entries[i];
    }
  }

  lemma {:induction false} EntriesPrefix(groups: seq<OfferGroup>, g: nat)
    requires g <= |groups|
    ensures Entries(groups[..g]) <= Entries(groups)
    decreases |groups|
  {
    if g < |groups| {
      var n := |groups|;
      assert groups[..n - 1][..g] == groups[..g];
      EntriesPrefix(groups[..n - 1], g);
    } else {
      assert groups[..g] == groups;
    }
  }

  lemma EntriesStep(groups: seq<OfferGroup>, g: nat)
    requires g < |groups|
    ensures Entries(groups[..g + 1]) == Entries(groups[..g]) + GroupEntries(groups[g])
  {
    assert groups[..g + 1][..g] == groups[..g];
  }

  /** A listing of a longer sequence of offers requires a listing of each prefix. */
  lemma {:induction false} ListingOfPrefix(isNumber: string -> bool, packagesType: string, entries: seq<Entry>, k: nat)
    requires k <= |entries| && Listing(isNumber, packagesType, entries).Some?
    ensures Listing(isNumber, packagesType, entries[..k]).Some?
    decreases |entries|
  {
    if k < |entries| {
      var n := |entries|;
      assert entries[..n - 1][..k] == entries[..k];
      ListingOfPrefix(isNumber, packagesType, entries[..n - 1], k);
    } else {
      assert entries[..k] == entries;
    }
  }

  /** The offers listed before offer `j` of group `g`. */
  function ListedBefore(groups: seq<OfferGroup>, g: nat, j: nat): seq<Entry>
    requires g < |groups| && j <= |groups[g].packages|
  {
    Entries(groups[..g]) + GroupEntries(groups[g])[..j]
  }

  /** Listing one more offer extends the lines by its block and the choices by its id. */
  lemma ListingStep(isNumber: string -> bool, packagesType: string, groups: seq<OfferGroup>, g: nat, j: nat,
                    lines: seq<ListingLine>, details: seq<ListingLine>)
    requires g < |groups| && j < |groups[g].packages|
    requires Listing(isNumber, packagesType, ListedBefore(groups, g, j)) == Some(lines)
    requires OfferDetails(isNumber, packagesType, Entry(groups[g].cadence, groups[g].packages[j])) == Some(details)
    ensures |ListedBefore(groups, g, j + 1)| == |ListedBefore(groups, g, j)| + 1
    ensures Listing(isNumber, packagesType, ListedBefore(groups, g, j + 1))
            == Some(lines + [Title(|ListedBefore(groups, g, j + 1)|, groups[g].packages[j].title)] + details + [Separator])
    ensures Ids(ListedBefore(groups, g, j + 1)) == Ids(ListedBefore(groups, g, j)) + [groups[g].packages[j].id]
  {
    var e := Entry(groups[g].cadence, groups[g].packages[j]);
    ListedBeforeStep(groups, g, j);
    ListingAppend(isNumber, packagesType, ListedBefore(groups, g, j), e, lines, details);
    IdsAppend(ListedBefore(groups, g, j), e);
  }

  lemma ListedBeforeStep(groups: seq<OfferGroup>, g: nat, j: nat)
    requires g < |groups| && j < |groups[g].packages|
    ensures ListedBefore(groups, g, j + 1) == ListedBefore(groups, g, j) + [Entry(groups[g].cadence, groups[g].packages[j])]
  {
    var offers := GroupEntries(groups[g]);
    assert offers[..j + 1] == offers[..j] + [offers[j]];
  }

  lemma ListingAppend(isNumber: string -> bool, packagesType: string, done: seq<Entry>, e: Entry,
                      lines: seq<ListingLine>, details: seq<ListingLine>)
    requires Listing(isNumber, packagesType, done) == Some(lines)
    requires OfferDetails(isNumber, packagesType, e) == Some(details)
    ensures Listing(isNumber, packagesType, done + [e]) == Some(lines + [Title(|done| + 1, e.offer.title)] + details + [Separator])
  {
    var all := done + [e];
    assert all[..|all| - 1] == done;
    assert all[|all| - 1] == e;
  }

  lemma IdsAppend(done: seq<Entry>, e: Entry)
    ensures Ids(done + [e]) == Ids(done) + [e.offer.id]
  {
  }

  /** An offer without the fields its details read makes the whole listing fail. */
  lemma ListingFailsAt(isNumber: string -> bool, packagesType: string, groups: seq<OfferGroup>, g: nat, j: nat)
    requires g < |groups| && j < |groups[g].packages|
    requires OfferDetails(isNumber, packagesType, Entry(groups[g].cadence, groups[g].packages[j])).None?
    ensures Listing(isNumber, packagesType, Entries(groups)).None?
  {
    NumberingContinuesAcrossGroups(groups, g, j);
    var all := Entries(groups);
    ListingDefined(isNumber, packagesType, all);
  }

  /** Finishing a group's offers reaches the listing of the groups up to it. */
  lemma GroupDone(groups: seq<OfferGroup>, g: nat)
    requires g < |groups|
    ensures ListedBefore(groups, g, |groups[g].packages|) == Entries(groups[..g + 1])
    ensures ListedBefore(groups, g, 0) == Entries(groups[..g])
  {
    EntriesStep(groups, g);
    assert GroupEntries(groups[g])[..|groups[g].packages|] == GroupEntries(groups[g]);
    assert GroupEntries(groups[g])[..0] == [];
  }

  /**
   * The nested listing loop of `subscribe`: every offer of every group is
   * appended to the choices and printed under the next number.
   */
  method ListPackages(isNumber: string -> bool, packagesType: string, groups: seq<OfferGroup>) returns (r: Result<Listed>)
    ensures r.Ok? <==> Listing(isNumber, packagesType, Entries(groups)).Some?
    ensures r.Ok? ==> r.value.lines == Listing(isNumber, packagesType, Entries(groups)).value
    ensures r.Ok? ==> r.value.choices == Ids(Entries(groups))
    ensures r.Err? ==> r.failure == Crash
  {
    var choices: seq<string> := [];
    var lines: seq<ListingLine> := [];
    for g := 0 to |groups|
      invariant Listing(isNumber, packagesType, Entries(groups[..g])) == Some(lines)
      invariant choices == Ids(Entries(groups[..g]))
    {
      var packages := groups[g].packages;
      GroupDone(groups, g);
      for j := 0 to |packages|
        invariant Listing(isNumber, packagesType, ListedBefore(groups, g, j)) == Some(lines)
        invariant choices == Ids(ListedBefore(groups, g, j))
      {
        var details := OfferDetails(isNumber, packagesType, Entry(groups[g].cadence, packages[j]));
        if details.None? {
          ListingFailsAt(isNumber, packagesType, groups, g, j);
          return Err(Crash);
        }
        ListingStep(isNumber, packagesType, groups, g, j, lines, details.value);
        choices := choices + [packages[j].id];
        lines := lines + [Title(|choices|, packages[j].title)] + details.value + [Separator];
      }
    }
    assert groups[..|groups|] == groups;
    r := Ok(Listed(choices, lines));
  }

  /**
   * Selecting number k of a complete listing picks the offer whose title is
   * printed under k: `choices[k-1]` is that offer's id.
   */
  lemma SelectionMatchesListing(isNumber: string -> bool, packagesType: string, groups: seq<OfferGroup>, k: int)
    requires Listing(isNumber, packagesType, Entries(groups)).Some?
    requires 1 <= k <= |Entries(groups)|
    ensures var entries := Entries(groups);
      var titles := Titles(Listing(isNumber, packagesType, entries).value);
      k - 1 < |titles| && titles[k - 1] == Title(k, entries[k - 1].offer.title)
      && Ids(entries)[k - 1] == entries[k - 1].offer.id
  {
    ListingNumbersOffers(isNumber, packagesType, Entries(groups));
  }

  /** The numbering runs on across groups: the first offer of a group follows the last of the groups before it. */
  lemma NumberingContinuesAcrossGroups(groups: seq<OfferGroup>, g: nat, j: nat)
    requires g < |groups| && j < |groups[g].packages|
    ensures var pos := |Entries(groups[..g])| + j;
      pos < |Entries(groups)| && Entries(groups)[pos] == Entry(groups[g].cadence, groups[g].packages[j])
  {
    EntriesStep(groups, g);
    EntriesPrefix(groups, g + 1);
  }
}
