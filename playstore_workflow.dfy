/** The scheduled rating check: fetch a rating per app name (catching each
    failure), format a report and forward the successes, then store one keyed
    history entry per forwarded rating. */
module PlayStoreWorkflow {
  import opened Wrappers
  import opened Text
  import opened PlayStoreTool

  /** One entry of the fetch step's output: `success: true` with the rating,
      or `success: false` with the thrown message. */
  datatype ItemResult = Fetched(appName: string, data: RatingRecord) | Failed(appName: string, error: string)

  datatype FetchOutput = FetchOutput(ratings: seq<ItemResult>, timestamp: string)
  datatype FormatOutput = FormatOutput(report: string, ratings: seq<RatingRecord>)
  datatype StoreOutput = StoreOutput(stored: nat, timestamp: string)

  /** The locale formatting the report uses: `new Date(t).toLocaleString()`,
      a number's text form, and `n.toLocaleString()` for integers. */
  datatype Formatters = Formatters(date: string -> string, number: real -> string, grouped: int -> string)

  /** A message appended to the agent memory. */
  datatype StoredMessage = StoredMessage(role: string, content: string, key: string)

  /** The agent memory: an append-only message log. */
  class HistoryStore {
    var messages: seq<StoredMessage>

    constructor ()
      ensures messages == []
    {
      messages := [];
    }

    /** `memory.saveMessages({ messages: [m] })`. */
    method SaveMessage(m: StoredMessage)
      modifies this
      ensures messages == old(messages) + [m]
    {
      messages := messages + [m];
    }
  }

  // ---------------------------------------------------------------------------
  // Step 1: fetch-ratings
  // ---------------------------------------------------------------------------

  /** The result recorded for one app name: the lookup's rating, or the message
      it threw. */
  function FetchOne(lookup: string -> Result<RatingRecord, string>, appName: string): (r: ItemResult)
    ensures r.appName == appName
    ensures r.Fetched? <==> lookup(appName).Success?
    ensures r.Fetched? ==> r.data == lookup(appName).value
    ensures r.Failed? ==> r.error == lookup(appName).error
  {
    match lookup(appName)
    case Success(rating) => Fetched(appName, rating)
    case Failure(message) => Failed(appName, message)
  }

  /** The fetch step: one lookup per name, in order; a failed lookup is recorded
      and the loop goes on. */
  method FetchRatings(appNames: seq<string>, lookup: string -> Result<RatingRecord, string>, now: string)
    returns (out: FetchOutput)
    ensures |out.ratings| == |appNames|
    ensures forall i :: 0 <= i < |appNames| ==> out.ratings[i] == FetchOne(lookup, appNames[i])
    ensures out.timestamp == now
  {
    var results: seq<ItemResult> := [];
    for i := 0 to |appNames|
      invariant |results| == i
      invariant forall j :: 0 <= j < i ==> results[j] == FetchOne(lookup, appNames[j])
    {
      var appName := appNames[i];
      match lookup(appName)
      case Success(rating) =>
        results := results + [Fetched(appName, rating)];
      case Failure(message) =>
        results := results + [Failed(appName, message)];
    }
    return FetchOutput(results, now);
  }

  // ---------------------------------------------------------------------------
  // Step 2: format-results
  // ---------------------------------------------------------------------------

  /** The data of the successful results, in order
      (`ratings.filter(r => r.success).map(r => r.data)`). */
  function Successes(rs: seq<ItemResult>): (s: seq<RatingRecord>)
    ensures |s| <= |rs|
  {
    if rs == [] then []
    else
      var rest := Successes(rs[..|rs| - 1]);
      var last := rs[|rs| - 1];
      if last.Fetched? then rest + [last.data] else rest
  }

  /** The (appName, error) pairs of the failed results, in order. */
  function Failures(rs: seq<ItemResult>): (f: seq<(string, string)>)
    ensures |f| <= |rs|
  {
    if rs == [] then []
    else
      var rest := Failures(rs[..|rs| - 1]);
      var last := rs[|rs| - 1];
      if last.Failed? then rest + [(last.appName, last.error)] else rest
  }

  /** Every result lands in exactly one of the two halves. */
  lemma {:induction false} PartitionSizes(rs: seq<ItemResult>)
    ensures |Successes(rs)| + |Failures(rs)| == |rs|
  {
    if rs != [] {
      PartitionSizes(rs[..|rs| - 1]);
    }
  }

  /** The i-th result, when successful, is forwarded at position
      |Successes(rs[..i])|, and later successes come after it; when it failed,
      its pair sits at position |Failures(rs[..i])| of the failures. */
  lemma {:induction false} PartitionPositions(rs: seq<ItemResult>, i: nat)
    requires i < |rs|
    ensures rs[i].Fetched? ==> |Successes(rs[..i])| < |Successes(rs)|
                                && Successes(rs)[|Successes(rs[..i])|] == rs[i].data
    ensures rs[i].Failed? ==> |Failures(rs[..i])| < |Failures(rs)|
                               && Failures(rs)[|Failures(rs[..i])|] == (rs[i].appName, rs[i].error)
    decreases |rs|
  {
    var init := rs[..|rs| - 1];
    if i == |rs| - 1 {
      assert rs[..i] == init;
    } else {
      assert init[..i] == rs[..i];
      PartitionPositions(init, i);
    }
  }

  /** Forwarded positions grow with the position in the fetch output: the
      format step keeps the fetch order. */
  lemma {:induction false} SuccessesOrderPreserving(rs: seq<ItemResult>, i: nat, j: nat)
    requires i < j <= |rs| && rs[i].Fetched?
    ensures |Successes(rs[..i])| < |Successes(rs[..j])|
    decreases j
  {
    if j == i + 1 {
      assert rs[..j][..i] == rs[..i];
    } else {
      SuccessesOrderPreserving(rs, i, j - 1);
      assert rs[..j][..j - 1] == rs[..j - 1];
    }
  }

  /** Everything forwarded is the data of a successful result. */
  lemma {:induction false} SuccessesComeFromFetched(rs: seq<ItemResult>, k: nat)
    requires k < |Successes(rs)|
    ensures exists i :: 0 <= i < |rs| && rs[i].Fetched? && rs[i].data == Successes(rs)[k]
  {
    var init := rs[..|rs| - 1];
    var last := rs[|rs| - 1];
    if k < |Successes(init)| {
      SuccessesComeFromFetched(init, k);
      var i :| 0 <= i < |init| && init[i].Fetched? && init[i].data == Successes(init)[k];
      assert rs[i] == init[i];
    } else {
      assert rs[|rs| - 1] == last;
    }
  }

  const ReportTitle := "📊 App Ratings Report - "
  const SuccessHeading := "✅ Successfully Retrieved:\n\n"
  const FailureHeading := "\n❌ Failed to Retrieve:\n\n"

  function Header(timestamp: string, fmt: Formatters): (h: string)
    ensures StartsWith(h, ReportTitle)
  {
    ReportTitle + fmt.date(timestamp) + "\n\n"
  }

  function TitleLine(d: RatingRecord): string { "📱 " + d.title + "\n" }

  function RatingLine(d: RatingRecord, fmt: Formatters): string {
    "   ⭐ Rating: " + fmt.number(d.rating) + "/5.0 (" + fmt.grouped(d.ratingsCount) + " ratings)\n"
  }

  function ReviewsLine(d: RatingRecord, fmt: Formatters): string { "   💬 Reviews: " + fmt.grouped(d.reviews) + "\n" }

  function InstallsLine(d: RatingRecord): string { "   📥 Installs: " + d.installs + "\n" }

  function DeveloperLine(d: RatingRecord): string { "   👨‍💻 Developer: " + d.developer + "\n" }

  function UrlLine(d: RatingRecord): string { "   🔗 " + d.url + "\n\n" }

  /** The six lines the report gives a successful rating. */
  function SuccessBlock(d: RatingRecord, fmt: Formatters): string {
    TitleLine(d) + RatingLine(d, fmt) + ReviewsLine(d, fmt) + InstallsLine(d) + DeveloperLine(d) + UrlLine(d)
  }

  /** A rating's block opens with the line naming the app's title. */
  lemma BlockStartsWithTitle(d: RatingRecord, fmt: Formatters)
    ensures StartsWith(SuccessBlock(d, fmt), TitleLine(d))
  {
    var t := TitleLine(d);
    assert StartsWith(t + RatingLine(d, fmt), t);
    StartsWithAppend(t + RatingLine(d, fmt), ReviewsLine(d, fmt), t);
    StartsWithAppend(t + RatingLine(d, fmt) + ReviewsLine(d, fmt), InstallsLine(d), t);
    StartsWithAppend(t + RatingLine(d, fmt) + ReviewsLine(d, fmt) + InstallsLine(d), DeveloperLine(d), t);
    StartsWithAppend(t + RatingLine(d, fmt) + ReviewsLine(d, fmt) + InstallsLine(d) + DeveloperLine(d), UrlLine(d), t);
  }

  /** The line the report gives a failure: "appName: error". */
  function FailureLine(f: (string, string)): (l: string)
    ensures StartsWith(l, "   • " + f.0 + ": ")
    ensures |l| > 0 && l[|l| - 1] == '\n'
  {
    "   • " + f.0 + ": " + f.1 + "\n"
  }

  function SuccessBlocks(ds: seq<RatingRecord>, fmt: Formatters): (bs: seq<string>)
    ensures |bs| == |ds|
  {
    seq(|ds|, k requires 0 <= k < |ds| => SuccessBlock(ds[k], fmt))
  }

  function FailureLines(fs: seq<(string, string)>): (ls: seq<string>)
    ensures |ls| == |fs|
  {
    seq(|fs|, k requires 0 <= k < |fs| => FailureLine(fs[k]))
  }

  function SuccessSection(ds: seq<RatingRecord>, fmt: Formatters): (s: string)
    ensures s == "" <==> |ds| == 0
    ensures |ds| > 0 ==> StartsWith(s, SuccessHeading)
  {
    if |ds| > 0 then SuccessHeading + Concat(SuccessBlocks(ds, fmt)) else ""
  }

  function FailureSection(fs: seq<(string, string)>): (s: string)
    ensures s == "" <==> |fs| == 0
    ensures |fs| > 0 ==> StartsWith(s, FailureHeading)
  {
    if |fs| > 0 then FailureHeading + Concat(FailureLines(fs)) else ""
  }

  /** The report the format step builds from the fetch output. */
  function Report(fetched: FetchOutput, fmt: Formatters): string {
    Header(fetched.timestamp, fmt)
    + SuccessSection(Successes(fetched.ratings), fmt)
    + FailureSection(Failures(fetched.ratings))
  }

  lemma BlocksStep(ds: seq<RatingRecord>, i: nat, fmt: Formatters)
    requires i < |ds|
    ensures Concat(SuccessBlocks(ds[..i + 1], fmt)) == Concat(SuccessBlocks(ds[..i], fmt)) + SuccessBlock(ds[i], fmt)
  {
    var bs := SuccessBlocks(ds[..i + 1], fmt);
    assert bs[..i] == SuccessBlocks(ds[..i], fmt);
  }

  /** The callback of the first `forEach`: six `report +=` lines for one
      successful rating. */
  method AppendBlock(report: string, data: RatingRecord, fmt: Formatters) returns (result: string)
    ensures result == report + SuccessBlock(data, fmt)
  {
    var title := "📱 " + data.title + "\n";
    var rating := "   ⭐ Rating: " + fmt.number(data.rating) + "/5.0 (" + fmt.grouped(data.ratingsCount) + " ratings)\n";
    var reviews := "   💬 Reviews: " + fmt.grouped(data.reviews) + "\n";
    var installs := "   📥 Installs: " + data.installs + "\n";
    var developer := "   👨‍💻 Developer: " + data.developer + "\n";
    var url := "   🔗 " + data.url + "\n\n";
    result := report + title;
    result := result + rating;
    result := result + reviews;
    result := result + installs;
    result := result + developer;
    result := result + url;
    assert title == TitleLine(data) && rating == RatingLine(data, fmt) && reviews == ReviewsLine(data, fmt);
    assert installs == InstallsLine(data) && developer == DeveloperLine(data) && url == UrlLine(data);
    AppendSix(report, title, rating, reviews, installs, developer, url);
  }

  /** The first `forEach` of the format step: the success heading, then one
      block per success, appended to `report`. */
  method AppendSuccesses(report: string, successful: seq<RatingRecord>, fmt: Formatters)
    returns (result: string)
    ensures result == report + SuccessSection(successful, fmt)
  {
    result := report;
    if |successful| > 0 {
      result := result + SuccessHeading;
      ghost var start := result;
      for i := 0 to |successful|
        invariant result == start + Concat(SuccessBlocks(successful[..i], fmt))
      {
        var data := successful[i];
        result := AppendBlock(result, data, fmt);
        BlocksStep(successful, i, fmt);
        AppendAssoc(start, Concat(SuccessBlocks(successful[..i], fmt)), SuccessBlock(data, fmt));
      }
      assert successful[..|successful|] == successful;
      AppendAssoc(report, SuccessHeading, Concat(SuccessBlocks(successful, fmt)));
    }
  }

  /** The second `forEach` of the format step: the failure heading, then one
      line per failure, appended to `report`. */
  lemma LinesStep(fs: seq<(string, string)>, i: nat)
    requires i < |fs|
    ensures Concat(FailureLines(fs[..i + 1])) == Concat(FailureLines(fs[..i])) + FailureLine(fs[i])
  {
    var ls := FailureLines(fs[..i + 1]);
    assert ls[..i] == FailureLines(fs[..i]);
  }

  method AppendFailures(report: string, failed: seq<(string, string)>) returns (result: string)
    ensures result == report + FailureSection(failed)
  {
    result := report;
    if |failed| > 0 {
      result := result + FailureHeading;
      ghost var start := result;
      for i := 0 to |failed|
        invariant result == start + Concat(FailureLines(failed[..i]))
      {
        var (appName, error) := failed[i];
        var line := "   • " + appName + ": " + error + "\n";
        assert line == FailureLine(failed[i]);
        LinesStep(failed, i);
        AppendAssoc(start, Concat(FailureLines(failed[..i])), line);
        result := result + line;
      }
      assert failed[..|failed|] == failed;
      AppendAssoc(report, FailureHeading, Concat(FailureLines(failed)));
    }
  }

  /** The format step: partition the fetch output, build the report, forward
      the successes. It reads nothing but the fetch output and the formatters. */
  method FormatResults(fetched: FetchOutput, fmt: Formatters) returns (out: FormatOutput)
    ensures out.report == Report(fetched, fmt)
    ensures out.ratings == Successes(fetched.ratings)
  {
    var successful := Successes(fetched.ratings);
    var failed := Failures(fetched.ratings);
    var report := ReportTitle + fmt.date(fetched.timestamp) + "\n\n";
    report := AppendSuccesses(report, successful, fmt);
    report := AppendFailures(report, failed);
    return FormatOutput(report, successful);
  }

  // Properties of the report

  /** The report always opens with its title line. */
  lemma ReportStartsWithTitle(fetched: FetchOutput, fmt: Formatters)
    ensures StartsWith(Report(fetched, fmt), ReportTitle)
  {
    var title := ReportTitle + fmt.date(fetched.timestamp);
    var H := Header(fetched.timestamp, fmt);
    var S, F := Successes(fetched.ratings), Failures(fetched.ratings);
    assert StartsWith(title, ReportTitle);
    StartsWithAppend(title, "\n\n", ReportTitle);
    StartsWithAppend(H, SuccessSection(S, fmt), ReportTitle);
    StartsWithAppend(H + SuccessSection(S, fmt), FailureSection(F), ReportTitle);
  }

  /** The report split after the header. */
  lemma ReportAfterHeader(fetched: FetchOutput, fmt: Formatters)
    ensures Report(fetched, fmt) == Header(fetched.timestamp, fmt)
      + (SuccessSection(Successes(fetched.ratings), fmt) + FailureSection(Failures(fetched.ratings)))
  {
    AppendAssoc(Header(fetched.timestamp, fmt), SuccessSection(Successes(fetched.ratings), fmt),
      FailureSection(Failures(fetched.ratings)));
  }

  /** When some lookups succeeded, the report is the header, the success
      heading, one block per forwarded rating in order, then the failure
      section. */
  lemma ReportAroundBlocks(fetched: FetchOutput, fmt: Formatters)
    requires |Successes(fetched.ratings)| > 0
    ensures Report(fetched, fmt) == Header(fetched.timestamp, fmt) + SuccessHeading
      + Concat(SuccessBlocks(Successes(fetched.ratings), fmt)) + FailureSection(Failures(fetched.ratings))
  {
    AppendAssoc(Header(fetched.timestamp, fmt), SuccessHeading, Concat(SuccessBlocks(Successes(fetched.ratings), fmt)));
  }

  /** When some lookups failed, the report ends with the failure heading and
      one line per failure, in order. */
  lemma ReportEndsWithFailureLines(fetched: FetchOutput, fmt: Formatters)
    requires |Failures(fetched.ratings)| > 0
    ensures Report(fetched, fmt) == Header(fetched.timestamp, fmt) + SuccessSection(Successes(fetched.ratings), fmt)
      + FailureHeading + Concat(FailureLines(Failures(fetched.ratings)))
  {
    AppendAssoc(Header(fetched.timestamp, fmt) + SuccessSection(Successes(fetched.ratings), fmt), FailureHeading,
      Concat(FailureLines(Failures(fetched.ratings))));
  }

  /** The success heading follows the header exactly when some lookup succeeded. */
  lemma SuccessSectionIff(fetched: FetchOutput, fmt: Formatters)
    ensures var r, h := Report(fetched, fmt), |Header(fetched.timestamp, fmt)|;
      h <= |r| && (|Successes(fetched.ratings)| > 0 <==> StartsWith(r[h..], SuccessHeading))
  {
    var S, F := Successes(fetched.ratings), Failures(fetched.ratings);
    var H := Header(fetched.timestamp, fmt);
    var rest := SuccessSection(S, fmt) + FailureSection(F);
    ReportAfterHeader(fetched, fmt);
    assert Report(fetched, fmt)[|H|..] == rest;
    if |S| > 0 {
      assert rest[..|SuccessHeading|] == SuccessHeading;
    } else if |F| > 0 {
      assert rest[0] == FailureHeading[0];
    }
  }

  /** The failure heading follows the success section exactly when some
      lookup failed; otherwise the report ends there. */
  lemma FailureSectionIff(fetched: FetchOutput, fmt: Formatters)
    ensures var r := Report(fetched, fmt);
      var at := |Header(fetched.timestamp, fmt)| + |SuccessSection(Successes(fetched.ratings), fmt)|;
      && at <= |r|
      && (|Failures(fetched.ratings)| > 0 <==> StartsWith(r[at..], FailureHeading))
      && (|Failures(fetched.ratings)| == 0 <==> |r| == at)
  {
    var F := Failures(fetched.ratings);
    var front := Header(fetched.timestamp, fmt) + SuccessSection(Successes(fetched.ratings), fmt);
    assert Report(fetched, fmt)[|front|..] == FailureSection(F);
  }

  /** The example batch: the first name is found, the second is not. */
  lemma MixedBatchExample(lookup: string -> Result<RatingRecord, string>, fmt: Formatters, timestamp: string)
    requires lookup("AppA").Success? && lookup("AppB").Failure?
    ensures var rs := [FetchOne(lookup, "AppA"), FetchOne(lookup, "AppB")];
      && Successes(rs) == [lookup("AppA").value]
      && Failures(rs) == [("AppB", lookup("AppB").error)]
      && Report(FetchOutput(rs, timestamp), fmt)
         == Header(timestamp, fmt) + SuccessHeading + SuccessBlock(lookup("AppA").value, fmt)
            + FailureHeading + FailureLine(("AppB", lookup("AppB").error))
  {
    var rs := [FetchOne(lookup, "AppA"), FetchOne(lookup, "AppB")];
    assert rs[..1] == [FetchOne(lookup, "AppA")];
    assert [FetchOne(lookup, "AppA")][..0] == [];
    var d := lookup("AppA").value;
    var f := ("AppB", lookup("AppB").error);
    assert Concat(SuccessBlocks([d], fmt)) == SuccessBlock(d, fmt) by {
      assert SuccessBlocks([d], fmt) == [SuccessBlock(d, fmt)];
      assert SuccessBlocks([d], fmt)[..0] == [];
    }
    assert Concat(FailureLines([f])) == FailureLine(f) by {
      assert FailureLines([f]) == [FailureLine(f)];
      assert FailureLines([f])[..0] == [];
    }
  }

  // ---------------------------------------------------------------------------
  // Step 3: store-results
  // ---------------------------------------------------------------------------

  const KeyPrefix := "rating_history:"

  /** `rating_history:{appId}:{timestamp}`. */
  function HistoryKey(appId: string, timestamp: string): (k: string)
    ensures StartsWith(k, KeyPrefix)
    ensures |k| == |KeyPrefix| + |appId| + 1 + |timestamp|
  {
    KeyPrefix + appId + ":" + timestamp
  }

  /** Reads `rating_history:{appId}:{timestamp}` back: the app id runs up to
      the first ':' after the prefix. */
  function ParseHistoryKey(key: string): Option<(string, string)> {
    if !StartsWith(key, KeyPrefix) then None
    else
      var rest := key[|KeyPrefix|..];
      var i := IndexOf(rest, ':');
      if i == |rest| then None else Some((rest[..i], rest[i + 1..]))
  }

  /** A key gives back its app id and timestamp, for app ids without ':'
      (store package names such as "com.example.app"); the timestamp may hold
      ':' itself. */
  lemma HistoryKeyRoundTrip(appId: string, timestamp: string)
    requires ':' !in appId
    ensures ParseHistoryKey(HistoryKey(appId, timestamp)) == Some((appId, timestamp))
  {
    var key := HistoryKey(appId, timestamp);
    assert key[..|KeyPrefix|] == KeyPrefix;
    var rest := key[|KeyPrefix|..];
    assert rest == appId + ":" + timestamp;
    assert rest[|appId|] == ':';
    assert forall k :: 0 <= k < |appId| ==> rest[k] == appId[k];
    var i := IndexOf(rest, ':');
    assert i == |appId|;
    assert rest[..i] == appId;
    assert rest[i + 1..] == timestamp;
  }

  /** The message saved for one rating. */
  function Entry(rating: RatingRecord, timestamp: string, stringify: RatingRecord -> string): StoredMessage {
    StoredMessage("assistant", stringify(rating), HistoryKey(rating.appId, timestamp))
  }

  function Entries(ratings: seq<RatingRecord>, timestamp: string, stringify: RatingRecord -> string): (es: seq<StoredMessage>)
    ensures |es| == |ratings|
  {
    seq(|ratings|, k requires 0 <= k < |ratings| => Entry(ratings[k], timestamp, stringify))
  }

  /** Every saved entry's key reads back as the rating's app id and the one
      timestamp of the store step. */
  lemma EntriesKeysRoundTrip(ratings: seq<RatingRecord>, timestamp: string, stringify: RatingRecord -> string, k: nat)
    requires k < |ratings| && ':' !in ratings[k].appId
    ensures ParseHistoryKey(Entries(ratings, timestamp, stringify)[k].key) == Some((ratings[k].appId, timestamp))
  {
    HistoryKeyRoundTrip(ratings[k].appId, timestamp);
  }

  /** The store step: with a memory, one save per forwarded rating, in order,
      all keyed with the step's one timestamp; without one, nothing is saved.
      Either way `stored` is the number of forwarded ratings. */
  method StoreResults(formatted: FormatOutput, memory: HistoryStore?, now: string,
                      stringify: RatingRecord -> string) returns (out: StoreOutput)
    modifies memory
    ensures out.stored == |formatted.ratings| && out.timestamp == now
    ensures memory != null ==> memory.messages == old(memory.messages) + Entries(formatted.ratings, now, stringify)
  {
    var ratings := formatted.ratings;
    var timestamp := now;
    if memory != null {
      for i := 0 to |ratings|
        invariant memory.messages == old(memory.messages) + Entries(ratings[..i], timestamp, stringify)
      {
        var rating := ratings[i];
        var message := StoredMessage("assistant", stringify(rating), KeyPrefix + rating.appId + ":" + timestamp);
        memory.SaveMessage(message);
        assert Entries(ratings[..i + 1], timestamp, stringify) == Entries(ratings[..i], timestamp, stringify) + [message];
      }
      assert ratings[..|ratings|] == ratings;
    }
    return StoreOutput(|ratings|, timestamp);
  }

  // ---------------------------------------------------------------------------
  // The workflow
  // ---------------------------------------------------------------------------

  /** The three steps in order, each reading the previous step's output. */
  method RunRatingCheck(appNames: seq<string>, lookup: string -> Result<RatingRecord, string>,
                        fmt: Formatters, stringify: RatingRecord -> string, memory: HistoryStore?,
                        fetchTime: string, storeTime: string)
    returns (fetched: FetchOutput, formatted: FormatOutput, stored: StoreOutput)
    modifies memory
    ensures |fetched.ratings| == |appNames|
    ensures forall i :: 0 <= i < |appNames| ==> fetched.ratings[i] == FetchOne(lookup, appNames[i])
    ensures formatted.report == Report(fetched, fmt)
    ensures formatted.ratings == Successes(fetched.ratings)
    ensures stored.stored == |Successes(fetched.ratings)|
    ensures memory != null ==> memory.messages == old(memory.messages) + Entries(formatted.ratings, storeTime, stringify)
  {
    fetched := FetchRatings(appNames, lookup, fetchTime);
    formatted := FormatResults(fetched, fmt);
    stored := StoreResults(formatted, memory, storeTime, stringify);
  }
}
