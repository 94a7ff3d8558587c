/**
 The DNS provider side: `get_dns_records` picks the ids of the listed
 records carrying the managed name, and `update_dns_record` overwrites one
 record and reports the result as a status line.
 */
module DnsRecords {
  import opened Responses

  /** One record of the zone listing. Only `id` and `name` are consulted. */
  datatype DnsRecord = DnsRecord(id: string, name: string, rtype: string, content: string, comment: string)

  /** Ids of the records at positions `from..` whose name is exactly `name`,
      in listing order. */
  function SelectFrom(records: seq<DnsRecord>, name: string, from: nat): (ids: seq<string>)
    requires from <= |records|
    ensures |ids| <= |records| - from
    decreases |records| - from
  {
    if from == |records| then []
    else (if records[from].name == name then [records[from].id] else []) + SelectFrom(records, name, from + 1)
  }

  /** The loop of `get_dns_records`: records are matched on `name` alone and
      kept in listing order. */
  function SelectIds(records: seq<DnsRecord>, name: string): seq<string>
  {
    SelectFrom(records, name, 0)
  }

  /** The listing positions at or after `from` holding a record named `name`,
      in increasing order: the reference against which the selection is
      checked. */
  function PositionsFrom(records: seq<DnsRecord>, name: string, from: nat): (ps: seq<nat>)
    requires from <= |records|
    ensures forall k :: 0 <= k < |ps| ==> from <= ps[k] < |records| && records[ps[k]].name == name
    ensures forall k, l :: 0 <= k < l < |ps| ==> ps[k] < ps[l]
    decreases |records| - from
  {
    if from == |records| then []
    else (if records[from].name == name then [from] else []) + PositionsFrom(records, name, from + 1)
  }

  /** Every position holding a record named `name` is among the positions:
      no matching record is skipped. */
  lemma {:induction false} PositionsComplete(records: seq<DnsRecord>, name: string, from: nat, j: nat)
    requires from <= j < |records| && records[j].name == name
    ensures j in PositionsFrom(records, name, from)
    decreases j - from
  {
    if from < j {
      PositionsComplete(records, name, from + 1, j);
    }
  }

  /** The ids of the records at positions `ps`, in the order of `ps`. */
  function IdsAt(records: seq<DnsRecord>, ps: seq<nat>): (ids: seq<string>)
    requires forall k :: 0 <= k < |ps| ==> ps[k] < |records|
  {
    seq(|ps|, k requires 0 <= k < |ps| => records[ps[k]].id)
  }

  /** The selected ids are exactly the ids at the matching positions, one per
      position and in listing order: nothing is dropped, added or reordered. */
  lemma {:induction false} SelectionFollowsPositions(records: seq<DnsRecord>, name: string, from: nat)
    requires from <= |records|
    ensures SelectFrom(records, name, from) == IdsAt(records, PositionsFrom(records, name, from))
    decreases |records| - from
  {
    if from < |records| {
      var ps := PositionsFrom(records, name, from + 1);
      SelectionFollowsPositions(records, name, from + 1);
      if records[from].name == name {
        var here := IdsAt(records, [from] + ps);
        var there := [records[from].id] + IdsAt(records, ps);
        forall k | 0 <= k < |here|
          ensures here[k] == there[k]
        {
          if k > 0 {
            assert ([from] + ps)[k] == ps[k - 1];
          }
        }
        assert here == there;
      }
    }
  }

  /** Which records are picked depends on names and ids alone: type,
      content and comment play no part. */
  lemma {:induction false} SelectionIgnoresOtherFields(a: seq<DnsRecord>, b: seq<DnsRecord>, name: string, from: nat)
    requires |a| == |b| && from <= |a|
    requires forall j :: 0 <= j < |a| ==> a[j].id == b[j].id && a[j].name == b[j].name
    ensures SelectFrom(a, name, from) == SelectFrom(b, name, from)
    decreases |a| - from
  {
    if from < |a| {
      SelectionIgnoresOtherFields(a, b, name, from + 1);
    }
  }

  /** `get_dns_records(name)` given the provider's reply to the listing request.
      A 200 reply yields the selected ids; any other status falls off the end
      of the function and yields `None`; an exception from the request is not
      caught and propagates to the caller. */
  function GetDnsRecords(listing: Reply<seq<DnsRecord>>, name: string): (r: Call<Option<seq<string>>>)
    ensures r.Threw? <==> listing.Raised?
    ensures r.Returned? ==> (r.value.Some? <==> listing.status == StatusOk)
    ensures r.Returned? && r.value.Some? ==>
              r.value.value == IdsAt(listing.body, PositionsFrom(listing.body, name, 0))
  {
    match listing
    case Raised => Threw
    case Answer(status, records) =>
      if status == StatusOk then
        SelectionFollowsPositions(records, name, 0);
        Returned(Some(SelectIds(records, name)))
      else Returned(None)
  }

  /** The fixed record type every update writes. */
  const RecordType: string := "A"

  /** The JSON body of an update request: these three fields and no others. */
  datatype Payload = Payload(rtype: string, name: string, content: string)

  /** One update request: the record it targets and the body it sends. */
  datatype UpdateCall = UpdateCall(recordId: string, payload: Payload)

  const ResolvedWord: string := "解析"
  const SuccessWord: string := "成功"
  const FailureWord: string := "失败"

  predicate StartsWith(s: string, prefix: string)
  {
    |prefix| <= |s| && s[..|prefix|] == prefix
  }

  predicate EndsWith(s: string, suffix: string)
  {
    |suffix| <= |s| && s[|s| - |suffix|..] == suffix
  }

  /** The status line `update_dns_record` returns for the reply `status`. */
  function StatusLine(ip: string, name: string, status: int): (line: string)
    ensures StartsWith(line, "ip:" + ip + ResolvedWord + name)
    ensures |line| == |"ip:" + ip + ResolvedWord + name| + 2
    ensures EndsWith(line, SuccessWord) <==> status == StatusOk
    ensures EndsWith(line, FailureWord) <==> status != StatusOk
  {
    var subject := "ip:" + ip + ResolvedWord + name;
    var line := subject + (if status == StatusOk then SuccessWord else FailureWord);
    assert line[..|subject|] == subject;
    assert line[|line| - 2..] == (if status == StatusOk then SuccessWord else FailureWord);
    line
  }

  /** A status line holds a newline only if the IP or the name does. */
  lemma StatusLineSingleLine(ip: string, name: string, status: int)
    requires '\n' !in ip && '\n' !in name
    ensures '\n' !in StatusLine(ip, name, status)
  {
  }

  /** What one `update_dns_record(record_id, name, cf_ip)` call does: the
      request it sends, and either the status line it returns or the
      exception from the request, which it does not catch. */
  datatype Updated = Updated(request: UpdateCall, line: Call<string>)

  function UpdateDnsRecord(recordId: string, name: string, ip: string, reply: Reply<()>): (u: Updated)
    ensures u.request.recordId == recordId
    ensures u.request.payload.rtype == RecordType
    ensures u.request.payload.name == name && u.request.payload.content == ip
    ensures u.line.Threw? <==> reply.Raised?
    ensures u.line.Returned? ==> u.line.value == StatusLine(ip, name, reply.status)
  {
    var request := UpdateCall(recordId, Payload(RecordType, name, ip));
    match reply
    case Raised => Updated(request, Threw)
    case Answer(status, _) => Updated(request, Returned(StatusLine(ip, name, status)))
  }
}
