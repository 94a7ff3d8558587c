# cf-speed-dns: the reconciliation core of `dnscf.py`, in Dafny

`dnscf.py` points the first two Cloudflare DNS records of one name, whatever
their type, at the best-ranked Cloudflare edge IPs, writing each as an "A"
record. One run of `main`:

1. fetches a comma-separated IP list from a ranking service, making at most
   five attempts, so at most four retries (`get_cf_speed_test_ip`);
2. splits the text on `','`;
3. lists the zone's records and keeps, in listing order, the ids of those whose
   name is the managed name (`get_dns_records`), then cuts that list to two;
4. pairs IP `i` with record `i` for every `i` below the shorter length and
   sends one update per pair (`update_dns_record`), collecting a status line
   ending in 成功 (success) or 失败 (failure);
5. posts the newline-joined status lines under a fixed banner to Telegram
   (`send_telegram_message`).

The model is a set of pure functions over the replies of the three
collaborators. Those replies are inputs:

- the ranking service is a function from attempt number to reply;
- the listing is one reply;
- the update endpoint is a function from update number to reply.

A reply is either a status code with a body, or an exception raised by the
HTTP client. A run is then a value: the update requests sent, in order, and
either the Python exception that ended the run or the status lines and the
Telegram message.

Modules, one per stage:

- `Responses` (`responses.dfy`): the reply, Python-call and `None` vocabularies.
- `Text` (`text.dfy`): `str.split` / `str.join` for a one-character separator.
- `SpeedTest` (`speed_test.dfy`): the retry loop.
- `DnsRecords` (`dns_records.dfy`): record selection, the update payload and the status line.
- `Telegram` (`telegram.dfy`): the notification text.
- `Reconcile` (`reconcile.dfy`): `main`, plus concrete scenarios.

## Model

| member | source | states |
|---|---|---|
| SpeedTest.FetchFrom | dnscf.py:25-36 | From attempt `next` on: a body is returned only from a 200 reply. That reply is the last attempt made, and every earlier attempt from `next` failed. `None` means every attempt up to `max_retries` failed and all of them were made. |
| SpeedTest.GetCfSpeedTestIp | dnscf.py:24-36 | At most `max(max_retries, 0)` requests are made. The result is the body of the first 200 reply, and no request follows it. The result is `None` exactly when no attempt below `max_retries` got a 200, and then every attempt was made. `Reconcile.FetchedText` is this call with the default of five attempts. |
| SpeedTest.FetchSeesOnlyItsAttempts | dnscf.py:25-31 | Two ranking services that agree on the attempts the fetch actually made give the same result. So nothing after the first success, or after the last retry, can influence it. |
| DnsRecords.PositionsFrom | dnscf.py:45-46 | Reference for the filter: the listing positions whose record name equals `name`, each in range and strictly increasing. |
| DnsRecords.PositionsComplete | dnscf.py:45-47 | Every position whose record name equals `name` is among those positions, so no matching record is skipped. |
| DnsRecords.SelectionFollowsPositions | dnscf.py:44-48 | The ids `get_dns_records` collects are exactly the ids at the matching positions, one per position, in listing order. Nothing is dropped, added or reordered. |
| DnsRecords.SelectFrom | dnscf.py:45-47 | The loop from listing position `from` on collects at most one id per remaining record, so no more ids than records from `from` on. Which ids, and in what order, is stated by `SelectionFollowsPositions`. `SelectIds` is this loop from position 0. |
| DnsRecords.SelectionIgnoresOtherFields | dnscf.py:45-47 | The selection depends only on each record's name and id. Records are matched on `name` alone: type, content and comment make no difference. |
| DnsRecords.GetDnsRecords | dnscf.py:39-50 | An exception from the listing request propagates. A 200 listing yields exactly the ids at the positions whose name matches, in listing order. Any other status yields `None`. |
| DnsRecords.StatusLine | dnscf.py:63-71 | The line starts with `"ip:"+ip+"解析"+name` and has exactly two more characters. It ends in 成功 exactly when the status is 200, and in 失败 exactly when it is not. |
| DnsRecords.StatusLineSingleLine | dnscf.py:66-71 | A status line contains no newline when neither the IP nor the name does. |
| DnsRecords.UpdateDnsRecord | dnscf.py:53-71 | The request targets the given record. Its payload is exactly type `A`, the name and the IP. It returns the status line for the reply's status, or propagates the request's exception. |
| Text.Split | dnscf.py:95 | `str.split(',')` returns at least one piece, and no piece contains the separator. `Reconcile.Candidates` is this split on `','`. |
| Text.SplitCount | dnscf.py:95 | The number of pieces is the number of separators in the text plus one. Empty pieces are kept. |
| Text.Join | dnscf.py:103 | `sep.join(parts)`: no parts give `""`, one part gives that part unchanged, and otherwise the text starts with the first part followed by the separator. Its inverse relation to `Split` is stated by `JoinSplit` and `SplitJoin`. |
| Text.JoinSplit | dnscf.py:95 | Joining the pieces with the separator gives back the original text. |
| Text.SplitJoin | dnscf.py:95 | Splitting the join of at least one separator-free part gives back those parts. |
| Reconcile.Take | dnscf.py:96 | `s[:n]` has `min(len(s), n)` elements, and they are the first ones of `s`. |
| Reconcile.UpdateLoop | dnscf.py:98-101 | Update `k` targets record `k` with IP `k` under the configured name, in increasing `k`. Status line `k` is the one for reply `k`. The loop covers every index below the count, unless an update raises. Then that update is the last one sent and no line is added for it. |
| Reconcile.ReconcileIds | dnscf.py:96-103 | At most `min(len(ips), len(ids[:2]))` updates, so at most two. Update `i` is `(ids[i], {A, name, ips[i]})`. A run without an exception makes exactly that many updates, with one status line each in order. It always posts the banner plus the newline-joined lines, even with no updates. If an update raises, the run stops there. |
| Reconcile.Run | dnscf.py:92-103 | The run crashes with no updates in three cases, each exactly when its condition holds. The fetch gives up (`None.split`). The listing request raises. The listing is not 200 (`None[:2]`). Any other crash is an update that raised. When the fetch returns text and the listing is 200, the run is exactly `ReconcileIds` applied to the split text and the selected ids. It never updates more than two records. |
| Reconcile.NotificationReportsEveryUpdate | dnscf.py:97-103 | Drop the banner from the posted text of a completed run with at least one update and split it on newlines. This gives the status lines exactly, in update order, provided the fetched text and the name have no newline. |
| Reconcile.RunIgnoresRecordDetails | dnscf.py:94-100 | Two 200 listings that agree on names and ids produce the same run. |
| Telegram.SendTelegramMessage | dnscf.py:74-80 | The message goes to the configured chat with parse mode HTML. Its text is the banner followed by the content, unchanged. |
| Telegram.NotificationText | dnscf.py:78 | The notification starts with the banner `"🌐 IP优选DNS更新通知\n\n"`. With no status lines it is the banner alone. |
| Telegram.NotificationListsLines | dnscf.py:78 | Removing the banner and splitting on newlines recovers the status lines, when there is at least one and none contains a newline. |
| Reconcile.ScenarioTwoOfThree | dnscf.py:92-103 | Setup: three IPs and three records with the managed name, plus one record with another name. The first fetch attempt raises. Result: exactly `recA`←`1.1.1.1` and `recB`←`2.2.2.2` are updated, `recC` is not touched, and the second update's failure is reported. |
| Reconcile.ScenarioTrailingComma | dnscf.py:95-100 | Text `"9.9.9.9,"` with two records: the second record is updated with empty content, because the split keeps the empty piece. |
| Reconcile.ScenarioNothingToPair | dnscf.py:97-103 | With no record under the managed name, nothing is updated. The notification is still posted, and it is the banner alone. |
| Reconcile.ScenarioFetchGivesUp | dnscf.py:94-95 | Five refused fetch attempts crash the run at the split. Nothing is updated, even though a sixth attempt would have succeeded. |

## Notes on behaviour

- Records are matched on `name` alone, in listing order. Type, content and
  comment are not looked at, and the ids are not sorted.
- Only the first two selected records are ever updated.
- The IP text is split on `','` without trimming. Empty pieces are kept and
  become candidates (see `Reconcile.ScenarioTrailingComma`).
- The update payload has exactly three fields: type `A`, the name and the IP.
- When the pairing loop finishes, the notification is posted, even when no
  update was made. It is not posted when an update request raises.
- When the fetch gives up or the listing is not 200, the run dies with a
  Python exception (`None.split`, `None[:2]`) before any update and without a
  notification. An exception raised by the listing request ends the run the
  same way.
- An exception raised by an update request (dnscf.py:61) is not caught either.
  The updates before it and the raising one have been sent; the run ends
  there, with no further update and no notification.

## Left out

- Environment variables and their `KeyError` at import (dnscf.py:8-15), and
  the authorisation headers (dnscf.py:19-22). They are configuration; the
  model takes the DNS name and chat id as `Reconcile.Config`.
- URLs, timeouts and the HTTP transport. Each request is reduced to its reply,
  or to the exception it raised. The `timeout` argument of the fetch is not a
  parameter of the model: whether a timeout fires decides whether an attempt
  raises, so its effect is part of the reply inputs.
- JSON decoding of the listing (`response.json()['result']`, `record['name']`,
  `record['id']`). A malformed body or a missing key would raise; the model
  assumes the provider's body decodes to a list of records.
- Console output: `print`, `traceback.print_exc` and the `time.strftime`
  timestamps (dnscf.py:33-34, 50, 64-70, 85-89). They have no effect on
  results.
- Whether the Telegram post succeeds (dnscf.py:82-89). Its outcome and
  exceptions are caught and only logged, so the model stops at the message
  it posts.
- `PUSHPLUS_TOKEN` is read but never used.
- The `__main__` guard (dnscf.py:105-106).
