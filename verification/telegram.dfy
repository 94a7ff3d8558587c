/**
 `send_telegram_message`: the status lines, already joined with newlines by
 the caller, are wrapped in a fixed banner and posted to one chat. Whether
 the post succeeds is logged and otherwise ignored.
 */
module Telegram {
  import opened Text

  /** The heading every notification starts with. */
  const Banner: string := "🌐 IP优选DNS更新通知\n\n"

  /** The message body is sent as HTML. */
  const ParseMode: string := "HTML"

  /** The JSON body of the `sendMessage` request. */
  datatype Message = Message(chatId: string, text: string, parseMode: string)

  /** The message posted for the already-joined `content`. */
  function SendTelegramMessage(chatId: string, content: string): (m: Message)
    ensures m.chatId == chatId && m.parseMode == ParseMode
    ensures |m.text| == |Banner| + |content|
    ensures m.text[..|Banner|] == Banner && m.text[|Banner|..] == content
  {
    Message(chatId, Banner + content, ParseMode)
  }

  /** The text a run reports for its status lines: the banner, then the lines
      joined with `'\n'`. With no lines it is the banner alone. */
  function NotificationText(lines: seq<string>): (text: string)
    ensures |lines| == 0 ==> text == Banner
    ensures |text| >= |Banner| && text[..|Banner|] == Banner
  {
    Banner + Join(lines, '\n')
  }

  /** A reader can recover every status line, in order, by cutting off the
      banner and splitting on newlines, provided no line itself holds a
      newline and there is at least one line. */
  lemma NotificationListsLines(lines: seq<string>)
    requires |lines| >= 1
    requires forall k :: 0 <= k < |lines| ==> '\n' !in lines[k]
    ensures Split(NotificationText(lines)[|Banner|..], '\n') == lines
  {
    var text := NotificationText(lines);
    assert text[|Banner|..] == Join(lines, '\n');
    SplitJoin(lines, '\n');
  }
}
