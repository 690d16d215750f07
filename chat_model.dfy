/** The normalised chat records every parser converges to. */
module ChatModel {
  import opened Wrappers
  import opened Numeric

  /** A custom or standard emoji: its id, its first shortcut and its image
      URL, each possibly empty. */
  datatype Emoji = Emoji(id: string, txt: string, url: string)

  /** One piece of a rendered message. The record allows any combination of
      the two options; `WellFormedRun` states the shape the parser produces. */
  datatype MessageRun = MessageRun(text: Option<string>, emoji: Option<Emoji>)

  datatype Author = Author(
    name: string,
    channel_id: string,
    channel_url: string,
    image_url: string,
    badge_url: Option<string>,
    is_verified: bool,
    is_chat_owner: bool,
    is_chat_sponsor: bool,
    is_chat_moderator: bool)

  /** `amount_value` stands for the `f64` the amount text parses to; it is
      a mathematical real here. */
  datatype ChatMessage = ChatMessage(
    message_type: string,
    id: string,
    message: string,
    message_ex: Option<seq<MessageRun>>,
    timestamp: Int64,
    datetime: string,
    elapsed_time: Option<string>,
    amount_value: Option<real>,
    amount_string: Option<string>,
    currency: Option<string>,
    bg_color: Option<UInt32>,
    author: Author)

  /** Exactly one of `text` and `emoji` is present. */
  predicate WellFormedRun(r: MessageRun)
  {
    r.text.Some? != r.emoji.Some?
  }

  /** The five `message_type` values the parser emits. */
  predicate KnownMessageType(t: string)
  {
    t in {"textMessage", "superChat", "superSticker", "newSponsor", "viewerEngagementMessage"}
  }

  /** The plain text of a run list: the text runs in order, emoji runs
      contributing nothing. */
  function PlainText(runs: seq<MessageRun>): string
  {
    if |runs| == 0 then ""
    else PlainText(runs[..|runs| - 1]) + (match runs[|runs| - 1].text case Some(t) => t case None => "")
  }

  lemma {:induction false} PlainTextAppend(xs: seq<MessageRun>, ys: seq<MessageRun>)
    ensures PlainText(xs + ys) == PlainText(xs) + PlainText(ys)
  {
    if |ys| == 0 {
      assert xs + ys == xs;
    } else {
      assert (xs + ys)[..|xs + ys| - 1] == xs + ys[..|ys| - 1];
      PlainTextAppend(xs, ys[..|ys| - 1]);
    }
  }

  /** Emoji runs leave the plain text unchanged wherever they stand. */
  lemma PlainTextIgnoresEmoji(xs: seq<MessageRun>, e: Emoji, ys: seq<MessageRun>)
    ensures PlainText(xs + [MessageRun(None, Some(e))] + ys) == PlainText(xs + ys)
  {
    PlainTextAppend(xs + [MessageRun(None, Some(e))], ys);
    PlainTextAppend(xs, [MessageRun(None, Some(e))]);
    PlainTextAppend(xs, ys);
  }

  /** The author given to engagement banners, which have no real author. */
  const EmptyAuthor: Author := Author("", "", "", "", None, false, false, false, false)

  /** What every parsed message satisfies, whatever its kind. */
  predicate WellFormedMessage(m: ChatMessage)
  {
    && KnownMessageType(m.message_type)
    && m.message_ex.Some?
    && (forall i :: 0 <= i < |m.message_ex.value| ==> WellFormedRun(m.message_ex.value[i]))
    && m.message == PlainText(m.message_ex.value)
    && m.elapsed_time.None?
    && (m.message_type !in {"superChat", "superSticker"} ==>
          m.amount_value.None? && m.amount_string.None? && m.currency.None? && m.bg_color.None?)
    && (m.message_type == "viewerEngagementMessage" ==> m.author == EmptyAuthor)
  }
}
