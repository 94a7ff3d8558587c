/**
 One run of the updater (`main`): fetch the ranked IP text, split it on
 commas, list the records of the managed name and keep the first two, update
 them position by position with the IPs, and post the collected status lines.
 Every collaborator reply is an input, so a run is a function of them.
 */
module Reconcile {
  import opened Responses
  import opened Text
  import opened SpeedTest
  import opened DnsRecords
  import opened Telegram

  /** The settings a run reads: the managed DNS name and the chat notified. */
  datatype Config = Config(dnsName: string, chatId: string)

  /** How many listed records a run may update. */
  const MaxManagedRecords: nat := 2

  /** Where a run stops with an uncaught Python exception. */
  datatype Crash =
    | SplitOnNone    // the fetch returned `None` and `None.split` fails
    | ListingRaised  // the listing request raised
    | SliceOfNone    // the listing was not 200, `get_dns_records` returned `None` and `None[:2]` fails
    | UpdateRaised   // an update request raised

  /** The observable result of a run: the update requests sent, in order, and
      either the crash that ended it or the status lines and the message. */
  datatype RunOutcome =
    | Crashed(reason: Crash, updates: seq<UpdateCall>)
    | Completed(updates: seq<UpdateCall>, lines: seq<string>, message: Message)

  function Min(a: int, b: int): int
  {
    if a <= b then a else b
  }

  /** `s[:n]` for a non-negative `n`. */
  function Take<T>(s: seq<T>, n: nat): (t: seq<T>)
    ensures |t| == Min(|s|, n)
    ensures forall k :: 0 <= k < |t| ==> t[k] == s[k]
  {
    if |s| <= n then s else s[..n]
  }

  /** What the pairing loop has done so far: the requests it sent,
      the status lines it collected, and whether an update raised. */
  datatype Progress = Progress(calls: seq<UpdateCall>, lines: seq<string>, raised: bool)

  /** The request update `k` of a run sends: IP `k` into record `k`. */
  function Planned(records: seq<string>, ips: seq<string>, name: string, k: nat): UpdateCall
    requires k < |records| && k < |ips|
  {
    UpdateCall(records[k], Payload(RecordType, name, ips[k]))
  }

  /** The loop `for i in range(count)` of `main`, after `|calls|` rounds:
      update `records[i]` with `ips[i]`, append the returned status line, go
      on; an exception from an update leaves the loop and the run. */
  function UpdateLoop(records: seq<string>, ips: seq<string>, name: string, replies: nat -> Reply<()>,
                      count: nat, calls: seq<UpdateCall>, lines: seq<string>): (p: Progress)
    requires count <= |records| && count <= |ips|
    requires |lines| == |calls| <= count
    requires forall k :: 0 <= k < |calls| ==> calls[k] == Planned(records, ips, name, k)
    requires forall k :: 0 <= k < |lines| ==>
               replies(k).Answer? && lines[k] == StatusLine(ips[k], name, replies(k).status)
    ensures |calls| <= |p.calls| <= count
    ensures forall k :: 0 <= k < |p.calls| ==> p.calls[k] == Planned(records, ips, name, k)
    ensures !p.raised ==> |p.calls| == count && |p.lines| == count
    ensures p.raised ==> |p.lines| == |p.calls| - 1 && replies(|p.lines|).Raised?
    ensures forall k :: 0 <= k < |p.lines| ==>
              replies(k).Answer? && p.lines[k] == StatusLine(ips[k], name, replies(k).status)
    decreases count - |calls|
  {
    var i := |calls|;
    if i == count then Progress(calls, lines, false)
    else
      var u := UpdateDnsRecord(records[i], name, ips[i], replies(i));
      match u.line
      case Threw =>
        assert u.request == Planned(records, ips, name, i);
        Progress(calls + [u.request], lines, true)
      case Returned(line) =>
        assert u.request == Planned(records, ips, name, i);
        assert replies(i).Answer? && line == StatusLine(ips[i], name, replies(i).status);
        UpdateLoop(records, ips, name, replies, count, calls + [u.request], lines + [line])
  }

  /** The part of `main` after both lookups succeeded: `ips` from the split
      and `ids` from the listing. Update `i` writes `ips[i]` into `ids[i]`
      under the configured name, for `i` below `min(len(ips), len(ids[:2]))`,
      so at most two records are touched and none past that count. Unless an
      update raised, the notification is always posted, listing one status
      line per update in update order, even when there were none. */
  function ReconcileIds(cfg: Config, ips: seq<string>, ids: seq<string>, updateReplies: nat -> Reply<()>): (out: RunOutcome)
    ensures out.Completed? || out.reason == UpdateRaised
    ensures |out.updates| <= Min(|ips|, Min(|ids|, MaxManagedRecords))
    ensures forall i :: 0 <= i < |out.updates| ==>
              out.updates[i] == UpdateCall(ids[i], Payload(RecordType, cfg.dnsName, ips[i]))
    ensures out.Completed? ==>
              && |out.updates| == Min(|ips|, Min(|ids|, MaxManagedRecords))
              && |out.lines| == |out.updates|
              && (forall i :: 0 <= i < |out.lines| ==>
                    updateReplies(i).Answer? && out.lines[i] == StatusLine(ips[i], cfg.dnsName, updateReplies(i).status))
              && out.message == Message(cfg.chatId, NotificationText(out.lines), ParseMode)
    ensures out.Crashed? ==>
              && 1 <= |out.updates|
              && updateReplies(|out.updates| - 1).Raised?
              && forall i :: 0 <= i < |out.updates| - 1 ==> updateReplies(i).Answer?
  {
    var records := Take(ids, MaxManagedRecords);
    var p := UpdateLoop(records, ips, cfg.dnsName, updateReplies, Min(|ips|, |records|), [], []);
    if p.raised then Crashed(UpdateRaised, p.calls)
    else Completed(p.calls, p.lines, SendTelegramMessage(cfg.chatId, Join(p.lines, '\n')))
  }

  /** The candidate IPs of a fetched text: `text.split(',')`, untrimmed. */
  function Candidates(text: string): seq<string>
  {
    Split(text, ',')
  }

  /** What the fetch of a run returns: the ranked IP text, or `None`. */
  function FetchedText(fetchReplies: nat -> Reply<string>): Option<string>
  {
    GetCfSpeedTestIp(fetchReplies, DefaultMaxRetries).text
  }

  /** `main()`. The run crashes before any update exactly when the fetch gives
      up (`None.split`), when the listing request raises, or when the listing
      is not 200 (`None[:2]`); otherwise the candidates and the selected ids
      are paired as `ReconcileIds` describes. */
  function Run(cfg: Config, fetchReplies: nat -> Reply<string>, listing: Reply<seq<DnsRecord>>,
               updateReplies: nat -> Reply<()>): (out: RunOutcome)
    ensures out == Crashed(SplitOnNone, []) <==> FetchedText(fetchReplies).None?
    ensures out == Crashed(ListingRaised, []) <==> FetchedText(fetchReplies).Some? && listing.Raised?
    ensures out == Crashed(SliceOfNone, []) <==>
              FetchedText(fetchReplies).Some? && listing.Answer? && listing.status != StatusOk
    ensures |out.updates| <= MaxManagedRecords
    ensures out.Crashed? && out.reason != UpdateRaised ==> out.updates == []
    ensures FetchedText(fetchReplies).Some? && IsOk(listing) ==>
              out == ReconcileIds(cfg, Candidates(FetchedText(fetchReplies).value),
                                  SelectIds(listing.body, cfg.dnsName), updateReplies)
    ensures (out.Completed? || out.reason == UpdateRaised) ==>
              && FetchedText(fetchReplies).Some?
              && IsOk(listing)
              && out == ReconcileIds(cfg, Candidates(FetchedText(fetchReplies).value),
                                     SelectIds(listing.body, cfg.dnsName), updateReplies)
  {
    var fetched := GetCfSpeedTestIp(fetchReplies, DefaultMaxRetries);
    match fetched.text
    case None => Crashed(SplitOnNone, [])
    case Some(text) =>
      var ips := Candidates(text);
      match GetDnsRecords(listing, cfg.dnsName)
      case Threw => Crashed(ListingRaised, [])
      case Returned(None) => Crashed(SliceOfNone, [])
      case Returned(Some(ids)) => ReconcileIds(cfg, ips, ids, updateReplies)
  }

  /** The operator can read every update's status line back from the posted
      message, in update order, by dropping the banner and splitting on
      newlines, as long as neither the fetched text nor the DNS name holds a
      newline (otherwise a line would fall apart) and at least one update was
      made. */
  lemma NotificationReportsEveryUpdate(cfg: Config, fetchReplies: nat -> Reply<string>,
                                       listing: Reply<seq<DnsRecord>>, updateReplies: nat -> Reply<()>)
    requires FetchedText(fetchReplies).Some? && '\n' !in FetchedText(fetchReplies).value
    requires '\n' !in cfg.dnsName
    requires Run(cfg, fetchReplies, listing, updateReplies).Completed?
    requires |Run(cfg, fetchReplies, listing, updateReplies).lines| >= 1
    ensures var out := Run(cfg, fetchReplies, listing, updateReplies);
            Split(out.message.text[|Banner|..], '\n') == out.lines
  {
    var out := Run(cfg, fetchReplies, listing, updateReplies);
    var text := FetchedText(fetchReplies).value;
    var ips := Candidates(text);
    var ids := SelectIds(listing.body, cfg.dnsName);
    assert out == ReconcileIds(cfg, ips, ids, updateReplies);
    SplitKeepsOut(text, ',', '\n');
    forall k | 0 <= k < |out.lines|
      ensures '\n' !in out.lines[k]
    {
      assert out.lines[k] == StatusLine(ips[k], cfg.dnsName, updateReplies(k).status);
      StatusLineSingleLine(ips[k], cfg.dnsName, updateReplies(k).status);
    }
    assert out.message.text == NotificationText(out.lines);
    NotificationListsLines(out.lines);
  }

  /** Two runs fed the same replies do the same thing: the update requests
      depend only on the fetched text and on the names and ids of the listed
      records, never on their other fields. */
  lemma RunIgnoresRecordDetails(cfg: Config, fetchReplies: nat -> Reply<string>,
                                a: seq<DnsRecord>, b: seq<DnsRecord>, updateReplies: nat -> Reply<()>)
    requires |a| == |b|
    requires forall j :: 0 <= j < |a| ==> a[j].id == b[j].id && a[j].name == b[j].name
    ensures Run(cfg, fetchReplies, Answer(StatusOk, a), updateReplies)
         == Run(cfg, fetchReplies, Answer(StatusOk, b), updateReplies)
  {
    SelectionIgnoresOtherFields(a, b, cfg.dnsName, 0);
  }

  /** A sample configuration and record set for the scenarios below. */
  const SampleName: string := "cdn.example.com"
  const SampleConfig: Config := Config(SampleName, "4242")

  function Rec(id: string, name: string): DnsRecord
  {
    DnsRecord(id, name, RecordType, "0.0.0.0", "")
  }

  /** A run whose fetch and listing both succeed is the pairing of the
      fetched candidates with the selected ids. */
  lemma RunPastLookups(cfg: Config, fetchReplies: nat -> Reply<string>, text: string,
                       records: seq<DnsRecord>, updateReplies: nat -> Reply<()>)
    requires FetchedText(fetchReplies) == Some(text)
    ensures Run(cfg, fetchReplies, Answer(StatusOk, records), updateReplies)
         == ReconcileIds(cfg, Candidates(text), SelectIds(records, cfg.dnsName), updateReplies)
  {
  }

  /** Replies of a ranking service whose first attempt raises and whose
      later attempts bring three IPs. */
  function FlakyRanking(k: nat): Reply<string>
  {
    if k == 0 then Raised else Answer(StatusOk, "1.1.1.1,2.2.2.2,3.3.3.3")
  }

  /** A provider that accepts the first update and rejects the others. */
  function FirstUpdateOnly(k: nat): Reply<()>
  {
    if k == 0 then Answer(StatusOk, ()) else Answer(500, ())
  }

  function AcceptAll(k: nat): Reply<()>
  {
    Answer(StatusOk, ())
  }

  function RankingWithTrailingComma(k: nat): Reply<string>
  {
    Answer(StatusOk, "9.9.9.9,")
  }

  function RankingOfOne(k: nat): Reply<string>
  {
    Answer(StatusOk, "9.9.9.9")
  }

  /** Five attempts are refused; a sixth would have succeeded. */
  function RankingDownFiveTimes(k: nat): Reply<string>
  {
    if k < 5 then Answer(503, "") else Answer(StatusOk, "1.1.1.1")
  }

  function RaiseAlways(k: nat): Reply<()>
  {
    Raised
  }

  /** The candidates of the sample texts below. */
  lemma ThreeCandidates()
    ensures Candidates("1.1.1.1,2.2.2.2,3.3.3.3") == ["1.1.1.1", "2.2.2.2", "3.3.3.3"]
  {
    assert Join(["1.1.1.1", "2.2.2.2", "3.3.3.3"], ',') == "1.1.1.1,2.2.2.2,3.3.3.3";
    SplitJoin(["1.1.1.1", "2.2.2.2", "3.3.3.3"], ',');
  }

  lemma TrailingEmptyCandidate()
    ensures Candidates("9.9.9.9,") == ["9.9.9.9", ""]
  {
    assert Join(["9.9.9.9", ""], ',') == "9.9.9.9,";
    SplitJoin(["9.9.9.9", ""], ',');
  }

  /** The zone of the first scenario: three records under the managed name,
      one under another name. */
  const ThreeManaged: seq<DnsRecord> :=
    [Rec("recA", SampleName), Rec("recZ", "other.example.com"), Rec("recB", SampleName), Rec("recC", SampleName)]

  /** The fetch of the first scenario: the first attempt raises, the second
      brings the list. */
  lemma FlakyRankingFetched()
    ensures FetchedText(FlakyRanking) == Some("1.1.1.1,2.2.2.2,3.3.3.3")
  {
  }

  /** The selection of the first scenario skips the record under the other
      name and keeps all three managed ones, in listing order. */
  lemma ThreeManagedSelected()
    ensures SelectIds(ThreeManaged, SampleName) == ["recA", "recB", "recC"]
  {
    assert SelectFrom(ThreeManaged, SampleName, 3) == ["recC"];
    assert SelectFrom(ThreeManaged, SampleName, 2) == ["recB", "recC"];
    assert SelectFrom(ThreeManaged, SampleName, 1) == ["recB", "recC"];
  }

  /** Past its lookups, the first scenario pairs three IPs with three ids. */
  lemma TwoOfThreeLookups()
    ensures Run(SampleConfig, FlakyRanking, Answer(StatusOk, ThreeManaged), FirstUpdateOnly)
         == ReconcileIds(SampleConfig, ["1.1.1.1", "2.2.2.2", "3.3.3.3"], ["recA", "recB", "recC"], FirstUpdateOnly)
  {
    FlakyRankingFetched();
    ThreeCandidates();
    ThreeManagedSelected();
    RunPastLookups(SampleConfig, FlakyRanking, "1.1.1.1,2.2.2.2,3.3.3.3", ThreeManaged, FirstUpdateOnly);
  }

  /** Three ranked IPs against three ids, the first update accepted and the
      second rejected. */
  lemma TwoOfThreePaired()
    ensures ReconcileIds(SampleConfig, ["1.1.1.1", "2.2.2.2", "3.3.3.3"], ["recA", "recB", "recC"], FirstUpdateOnly)
         == Completed([UpdateCall("recA", Payload("A", SampleName, "1.1.1.1")),
                       UpdateCall("recB", Payload("A", SampleName, "2.2.2.2"))],
                      ["ip:" + "1.1.1.1" + "解析" + SampleName + "成功", "ip:" + "2.2.2.2" + "解析" + SampleName + "失败"],
                      Message("4242", "🌐 IP优选DNS更新通知\n\n" + ("ip:" + "1.1.1.1" + "解析" + SampleName + "成功")
                                      + "\n" + ("ip:" + "2.2.2.2" + "解析" + SampleName + "失败"), "HTML"))
  {
    var first := "ip:" + "1.1.1.1" + "解析" + SampleName + "成功";
    var second := "ip:" + "2.2.2.2" + "解析" + SampleName + "失败";
    var out := ReconcileIds(SampleConfig, ["1.1.1.1", "2.2.2.2", "3.3.3.3"], ["recA", "recB", "recC"], FirstUpdateOnly);
    assert out.Completed? && |out.updates| == 2;
    assert out.updates == [UpdateCall("recA", Payload("A", SampleName, "1.1.1.1")),
                           UpdateCall("recB", Payload("A", SampleName, "2.2.2.2"))];
    assert out.lines == [first, second] by {
      assert out.lines[0] == StatusLine("1.1.1.1", SampleName, 200);
      assert out.lines[1] == StatusLine("2.2.2.2", SampleName, 500);
    }
    assert out.message.text == Banner + first + "\n" + second by {
      assert Join([first, second], '\n') == first + "\n" + second;
    }
  }

  /** Three ranked IPs and three managed records; the first fetch attempt
      raises and the second brings the list. Only the first two records are
      updated, with the first two IPs; the third record is never touched, and
      the second update's failure is reported, not retried. */
  lemma ScenarioTwoOfThree()
    ensures Run(SampleConfig, FlakyRanking, Answer(StatusOk, ThreeManaged), FirstUpdateOnly)
         == Completed([UpdateCall("recA", Payload("A", SampleName, "1.1.1.1")),
                       UpdateCall("recB", Payload("A", SampleName, "2.2.2.2"))],
                      ["ip:" + "1.1.1.1" + "解析" + SampleName + "成功", "ip:" + "2.2.2.2" + "解析" + SampleName + "失败"],
                      Message("4242", "🌐 IP优选DNS更新通知\n\n" + ("ip:" + "1.1.1.1" + "解析" + SampleName + "成功")
                                      + "\n" + ("ip:" + "2.2.2.2" + "解析" + SampleName + "失败"), "HTML"))
  {
    TwoOfThreeLookups();
    TwoOfThreePaired();
  }

  /** The two managed records of the trailing-comma scenario. */
  const TwoManaged: seq<DnsRecord> := [Rec("recX", SampleName), Rec("recY", SampleName)]

  lemma TrailingCommaFetched()
    ensures FetchedText(RankingWithTrailingComma) == Some("9.9.9.9,")
  {
  }

  lemma TwoManagedSelected()
    ensures SelectIds(TwoManaged, SampleName) == ["recX", "recY"]
  {
    assert SelectFrom(TwoManaged, SampleName, 1) == ["recY"];
  }

  /** Past its lookups, the trailing-comma scenario pairs two candidates,
      the second one empty, with two ids. */
  lemma TrailingCommaLookups()
    ensures Run(SampleConfig, RankingWithTrailingComma, Answer(StatusOk, TwoManaged), AcceptAll)
         == ReconcileIds(SampleConfig, ["9.9.9.9", ""], ["recX", "recY"], AcceptAll)
  {
    TrailingCommaFetched();
    TrailingEmptyCandidate();
    TwoManagedSelected();
    RunPastLookups(SampleConfig, RankingWithTrailingComma, "9.9.9.9,", TwoManaged, AcceptAll);
  }

  /** The split keeps empty pieces: a trailing comma yields an empty candidate,
      and with two records the second one is updated with empty content. */
  lemma ScenarioTrailingComma()
    ensures Run(SampleConfig, RankingWithTrailingComma, Answer(StatusOk, TwoManaged), AcceptAll).updates
         == [UpdateCall("recX", Payload("A", SampleName, "9.9.9.9")), UpdateCall("recY", Payload("A", SampleName, ""))]
  {
    TrailingCommaLookups();
    var out := ReconcileIds(SampleConfig, ["9.9.9.9", ""], ["recX", "recY"], AcceptAll);
    assert out.Completed? && |out.updates| == 2;
  }

  /** No record carries the managed name: nothing is updated, yet the
      notification is still posted, consisting of the banner alone. */
  lemma ScenarioNothingToPair()
    ensures Run(SampleConfig, RankingOfOne, Answer(StatusOk, [Rec("recX", "other.example.com")]), AcceptAll)
         == Completed([], [], Message("4242", "🌐 IP优选DNS更新通知\n\n", "HTML"))
  {

  }

  /** Five refused attempts end the run at the split, before the listing is
      even requested, whatever a sixth attempt would have brought. */
  lemma ScenarioFetchGivesUp()
    ensures Run(SampleConfig, RankingDownFiveTimes, Raised, RaiseAlways) == Crashed(SplitOnNone, [])
  {
  }
}
