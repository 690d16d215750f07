/** The live-chat normaliser: one decoded `get_live_chat` response becomes
    the ordered list of chat messages it carries, the next continuation
    token and the server-suggested wait. The per-item parsers are pure
    functions; the loops that walk the action list, the badge list and the
    run list are methods proved equal to the functions that specify them. */
module ChatRepository {
  import opened Wrappers
  import opened Json
  import opened Numeric
  import opened DateTime
  import opened ChatModel

  // ---------------------------------------------------------------------
  // Strings
  // ---------------------------------------------------------------------

  /** `v.as_str().unwrap_or("")` */
  function StrOrEmpty(v: Json): string
  {
    match AsStr(v)
    case Some(s) => s
    case None => ""
  }

  function CountChar(s: string, c: char): nat
  {
    if |s| == 0 then 0 else CountChar(s[..|s| - 1], c) + (if s[|s| - 1] == c then 1 else 0)
  }

  /** `s.split(sep)`: the pieces between separators, empty pieces included. */
  function Split(s: string, sep: char): (parts: seq<string>)
    ensures |parts| == CountChar(s, sep) + 1
    ensures forall i :: 0 <= i < |parts| ==> sep !in parts[i]
  {
    if |s| == 0 then [""]
    else
      var init := Split(s[..|s| - 1], sep);
      if s[|s| - 1] == sep then init + [""]
      else init[..|init| - 1] + [init[|init| - 1] + [s[|s| - 1]]]
  }

  /** The pieces glued back together with `sep` between neighbours. */
  function Join(parts: seq<string>, sep: char): string
    requires |parts| >= 1
  {
    if |parts| == 1 then parts[0] else Join(parts[..|parts| - 1], sep) + [sep] + parts[|parts| - 1]
  }

  lemma JoinEmptyLast(parts: seq<string>, sep: char)
    requires |parts| >= 1
    ensures Join(parts + [""], sep) == Join(parts, sep) + [sep]
  {
    assert (parts + [""])[..|parts|] == parts;
  }

  lemma JoinExtendLast(parts: seq<string>, sep: char, c: char)
    requires |parts| >= 1
    ensures Join(parts[..|parts| - 1] + [parts[|parts| - 1] + [c]], sep) == Join(parts, sep) + [c]
  {
    var n := |parts| - 1;
    var longer := parts[..n] + [parts[n] + [c]];
    if n > 0 {
      assert longer[..n] == parts[..n];
      assert Join(longer, sep) == Join(parts[..n], sep) + [sep] + (parts[n] + [c]);
    }
  }

  lemma {:induction false} JoinSplit(s: string, sep: char)
    ensures Join(Split(s, sep), sep) == s
  {
    if |s| > 0 {
      var init := Split(s[..|s| - 1], sep);
      JoinSplit(s[..|s| - 1], sep);
      var last := s[|s| - 1];
      if last == sep {
        JoinEmptyLast(init, sep);
      } else {
        JoinExtendLast(init, sep, last);
      }
      assert s == s[..|s| - 1] + [last];
    }
  }

  /** ASCII lower-casing; characters outside `A`..`Z` are kept. */
  function Lower(s: string): (r: string)
    ensures |r| == |s|
    ensures forall i :: 0 <= i < |s| ==> r[i] == if 'A' <= s[i] <= 'Z' then (s[i] as int + 32) as char else s[i]
  {
    if |s| == 0 then ""
    else [if 'A' <= s[0] <= 'Z' then (s[0] as int + 32) as char else s[0]] + Lower(s[1..])
  }

  /** `sub` occurs in `s` starting at index `i`. */
  predicate OccursAt(s: string, sub: string, i: int)
  {
    0 <= i && i + |sub| <= |s| && s[i..i + |sub|] == sub
  }

  /** `s.contains(sub)` */
  function Contains(s: string, sub: string): (b: bool)
    ensures b <==> exists i :: OccursAt(s, sub, i)
  {
    if |sub| > |s| then false
    else if s[..|sub|] == sub then
      assert OccursAt(s, sub, 0);
      true
    else
      var b := Contains(s[1..], sub);
      assert b ==> exists i :: OccursAt(s, sub, i) by {
        if b {
          var j :| OccursAt(s[1..], sub, j);
          assert s[j + 1..j + 1 + |sub|] == s[1..][j..j + |sub|];
          assert OccursAt(s, sub, j + 1);
        }
      }
      assert (exists i :: OccursAt(s, sub, i)) ==> b by {
        if i :| OccursAt(s, sub, i) {
          assert i != 0;
          assert s[1..][i - 1..i - 1 + |sub|] == s[i..i + |sub|];
          assert OccursAt(s[1..], sub, i - 1);
        }
      }
      b
  }

  /** `s.replace(",", "")` */
  function RemoveCommas(s: string): (r: string)
    ensures ',' !in r
    ensures |r| == |s| - CountChar(s, ',')
    ensures ',' !in s ==> r == s
  {
    if |s| == 0 then ""
    else
      var init := s[..|s| - 1];
      assert ',' !in s ==> ',' !in init;
      RemoveCommas(init) + (if s[|s| - 1] == ',' then "" else [s[|s| - 1]])
  }

  // ---------------------------------------------------------------------
  // Message runs
  // ---------------------------------------------------------------------

  /** An emoji run's payload: its `emojiId`, its first shortcut and the URL
      of its first thumbnail, each "" when missing or not a string. */
  function EmojiOf(emoji: Json): (r: Emoji)
    ensures var id := Field(emoji, "emojiId");
      r.id == if id.Str? then id.s else ""
    ensures var shortcuts := Field(emoji, "shortcuts");
      if shortcuts.Arr? && |shortcuts.items| > 0 && shortcuts.items[0].Str?
      then r.txt == shortcuts.items[0].s else r.txt == ""
    ensures var thumbnails := Field(Field(emoji, "image"), "thumbnails");
      if thumbnails.Arr? && |thumbnails.items| > 0 && Field(thumbnails.items[0], "url").Str?
      then r.url == Field(thumbnails.items[0], "url").s else r.url == ""
  {
    Emoji(
      StrOrEmpty(Field(emoji, "emojiId")),
      StrOrEmpty(Elem(Field(emoji, "shortcuts"), 0)),
      StrOrEmpty(Field(Elem(Field(Field(emoji, "image"), "thumbnails"), 0), "url")))
  }

  /** One raw run: a text run when `text` holds a string, else an emoji run
      when an `emoji` key is present, else nothing. */
  function RunOf(run: Json): (r: Option<MessageRun>)
    ensures r.Some? ==> WellFormedRun(r.value)
    ensures r.Some? <==> Field(run, "text").Str? || Has(run, "emoji")
    ensures Field(run, "text").Str? ==> r == Some(MessageRun(Some(Field(run, "text").s), None))
    ensures !Field(run, "text").Str? && Has(run, "emoji") ==>
      r == Some(MessageRun(None, Some(EmojiOf(Field(run, "emoji")))))
  {
    match Get(run, "text")
    case Some(Str(text)) => Some(MessageRun(Some(text), None))
    case _ =>
      match Get(run, "emoji")
      case Some(emoji) => Some(MessageRun(None, Some(EmojiOf(emoji))))
      case None => None
  }

  /** The runs kept from a raw run list, in their original order. */
  function RunsOf(xs: seq<Json>): (r: seq<MessageRun>)
    ensures |r| <= |xs|
    ensures forall i :: 0 <= i < |r| ==> WellFormedRun(r[i])
  {
    if |xs| == 0 then []
    else
      RunsOf(xs[..|xs| - 1])
        + (match RunOf(xs[|xs| - 1]) case Some(run) => [run] case None => [])
  }

  /** `parse_message_runs` as a value: no runs unless `runs` is an array. */
  function MessageRuns(runs: Json): seq<MessageRun>
  {
    RunsOf(ItemsOrEmpty(runs))
  }

  /** Run extraction works piecewise: what a list yields is what its two
      halves yield, in order. */
  lemma {:induction false} RunsOfAppend(xs: seq<Json>, ys: seq<Json>)
    ensures RunsOf(xs + ys) == RunsOf(xs) + RunsOf(ys)
  {
    if |ys| == 0 {
      assert xs + ys == xs;
    } else {
      assert (xs + ys)[..|xs + ys| - 1] == xs + ys[..|ys| - 1];
      RunsOfAppend(xs, ys[..|ys| - 1]);
    }
  }

  /** A raw run with neither a string `text` nor an `emoji` key leaves no
      trace, wherever it stands. */
  lemma RunsOfDropsBareRun(xs: seq<Json>, run: Json, ys: seq<Json>)
    requires !Field(run, "text").Str? && !Has(run, "emoji")
    ensures RunsOf(xs + [run] + ys) == RunsOf(xs + ys)
  {
    assert RunOf(run).None?;
    assert RunsOf([run]) == [] by {
      assert [run][..0] == [];
    }
    RunsOfAppend(xs, [run]);
    assert RunsOf(xs + [run]) == RunsOf(xs);
    RunsOfAppend(xs + [run], ys);
    RunsOfAppend(xs, ys);
  }

  /** `parse_message_runs`: walks the run array and pushes each kept run. */
  method ParseMessageRuns(runs: Json) returns (messageRuns: seq<MessageRun>)
    ensures messageRuns == MessageRuns(runs)
    ensures |messageRuns| <= |ItemsOrEmpty(runs)|
    ensures forall i :: 0 <= i < |messageRuns| ==> WellFormedRun(messageRuns[i])
  {
    messageRuns := [];
    if runs.Arr? {
      var xs := runs.items;
      var i := 0;
      while i < |xs|
        invariant 0 <= i <= |xs|
        invariant messageRuns == RunsOf(xs[..i])
      {
        assert xs[..i + 1][..i] == xs[..i];
        var run := xs[i];
        match Get(run, "text") {
          case Some(Str(text)) =>
            messageRuns := messageRuns + [MessageRun(Some(text), None)];
          case _ =>
            match Get(run, "emoji") {
              case Some(emoji) =>
                messageRuns := messageRuns + [MessageRun(None, Some(EmojiOf(emoji)))];
              case None =>
            }
        }
        i := i + 1;
      }
      assert xs[..i] == xs;
    }
  }

  /** The `message` string: the text runs collected front to back. */
  function CollectText(runs: seq<MessageRun>): (r: string)
    ensures r == PlainText(runs)
  {
    if |runs| == 0 then ""
    else
      var head := match runs[0].text case Some(t) => t case None => "";
      var r := head + CollectText(runs[1..]);
      PlainTextAppend([runs[0]], runs[1..]);
      assert [runs[0]] + runs[1..] == runs;
      assert [runs[0]][..0] == [];
      r
  }

  // ---------------------------------------------------------------------
  // Authors and badges
  // ---------------------------------------------------------------------

  const ChannelUrlPrefix: string := "https://www.youtube.com/channel/"

  datatype Role = Verified | Moderator | Owner | Sponsor

  /** The role a lower-cased badge label names, trying verified, moderator,
      owner and member in that order, each in English or Japanese. */
  function RoleOfLabel(labelText: string): Option<Role>
  {
    if Contains(labelText, "verified") || Contains(labelText, "認証済み") then Some(Verified)
    else if Contains(labelText, "moderator") || Contains(labelText, "モデレーター") then Some(Moderator)
    else if Contains(labelText, "owner") || Contains(labelText, "所有者") then Some(Owner)
    else if Contains(labelText, "member") || Contains(labelText, "メンバー") then Some(Sponsor)
    else None
  }

  /** The mutable locals of `parse_author` while it walks the badges. */
  datatype BadgeState = BadgeState(
    badge_url: Option<string>,
    is_verified: bool,
    is_chat_owner: bool,
    is_chat_moderator: bool,
    is_chat_sponsor: bool)

  const NoBadges: BadgeState := BadgeState(None, false, false, false, false)

  function HasRole(st: BadgeState, role: Role): bool
  {
    match role
    case Verified => st.is_verified
    case Moderator => st.is_chat_moderator
    case Owner => st.is_chat_owner
    case Sponsor => st.is_chat_sponsor
  }

  function BadgeRenderer(badge: Json): Option<Json>
  {
    Get(badge, "liveChatAuthorBadgeRenderer")
  }

  function ThumbnailUrl(v: Json): Option<string>
  {
    AsStr(Field(Elem(Field(v, "thumbnails"), 0), "url"))
  }

  /** The icon URL a badge assigns: absent when its renderer has neither
      an `icon` nor a `customThumbnail` key (the URL is then left alone),
      otherwise that key's first thumbnail URL, itself possibly absent. */
  function BadgeIcon(badge: Json): Option<Option<string>>
  {
    match BadgeRenderer(badge)
    case None => None
    case Some(br) =>
      match Get(br, "icon")
      case Some(icon) => Some(ThumbnailUrl(icon))
      case None =>
        match Get(br, "customThumbnail")
        case Some(custom) => Some(ThumbnailUrl(custom))
        case None => None
  }

  /** The role a badge's accessibility label names, if any. */
  function BadgeRole(badge: Json): Option<Role>
  {
    match BadgeRenderer(badge)
    case None => None
    case Some(br) =>
      match AsStr(Field(Field(Field(br, "accessibility"), "accessibilityData"), "label"))
      case Some(labelText) => RoleOfLabel(Lower(labelText))
      case None => None
  }

  /** One turn of the badge loop. */
  function ApplyBadge(st: BadgeState, badge: Json): BadgeState
  {
    Assigned(st, BadgeIcon(badge), BadgeRole(badge))
  }

  /** The locals after a badge with icon `icon` and role `role`. */
  function Assigned(st: BadgeState, icon: Option<Option<string>>, role: Option<Role>): BadgeState
  {
    var url := match icon case Some(u) => u case None => st.badge_url;
    match role
    case Some(Verified) => st.(badge_url := url, is_verified := true)
    case Some(Moderator) => st.(badge_url := url, is_chat_moderator := true)
    case Some(Owner) => st.(badge_url := url, is_chat_owner := true)
    case Some(Sponsor) => st.(badge_url := url, is_chat_sponsor := true)
    case None => st.(badge_url := url)
  }

  lemma AssignedEffect(st: BadgeState, icon: Option<Option<string>>, role: Option<Role>, r: Role)
    ensures HasRole(Assigned(st, icon, role), r) <==> HasRole(st, r) || role == Some(r)
    ensures Assigned(st, icon, role).badge_url == if icon.Some? then icon.value else st.badge_url
  {
  }

  /** A badge sets the flag of the role its label names and no other, and
      replaces the URL exactly when it has an `icon` or `customThumbnail`. */
  lemma ApplyBadgeEffect(st: BadgeState, badge: Json, role: Role)
    ensures HasRole(ApplyBadge(st, badge), role) <==> HasRole(st, role) || BadgeRole(badge) == Some(role)
    ensures ApplyBadge(st, badge).badge_url == if BadgeIcon(badge).Some? then BadgeIcon(badge).value else st.badge_url
  {
    AssignedEffect(st, BadgeIcon(badge), BadgeRole(badge), role);
  }

  function ApplyBadges(st: BadgeState, badges: seq<Json>): BadgeState
  {
    if |badges| == 0 then st else ApplyBadge(ApplyBadges(st, badges[..|badges| - 1]), badges[|badges| - 1])
  }

  /** After the loop a role flag is set exactly when it was set before or
      some badge names that role. */
  lemma {:induction false} ApplyBadgesRoles(st: BadgeState, badges: seq<Json>, role: Role)
    ensures HasRole(ApplyBadges(st, badges), role)
        <==> HasRole(st, role) || exists i :: 0 <= i < |badges| && BadgeRole(badges[i]) == Some(role)
  {
    if |badges| > 0 {
      var init := badges[..|badges| - 1];
      ApplyBadgesRoles(st, init, role);
      ApplyBadgeEffect(ApplyBadges(st, init), badges[|badges| - 1], role);
      if exists i :: 0 <= i < |badges| && BadgeRole(badges[i]) == Some(role) {
        var i :| 0 <= i < |badges| && BadgeRole(badges[i]) == Some(role);
        if i < |badges| - 1 {
          assert BadgeRole(init[i]) == Some(role);
        }
      }
    }
  }

  /** Badges without an `icon` or `customThumbnail` key leave the badge URL
      as it was. */
  lemma {:induction false} ApplyBadgesUrlUnset(st: BadgeState, badges: seq<Json>)
    requires forall i :: 0 <= i < |badges| ==> BadgeIcon(badges[i]).None?
    ensures ApplyBadges(st, badges).badge_url == st.badge_url
  {
    if |badges| > 0 {
      var init := badges[..|badges| - 1];
      assert forall i :: 0 <= i < |init| ==> init[i] == badges[i];
      ApplyBadgesUrlUnset(st, init);
      ApplyBadgeEffect(ApplyBadges(st, init), badges[|badges| - 1], Verified);
    }
  }

  /** The badge URL after the loop is the one assigned by the last badge
      that has an `icon` or `customThumbnail` key, even when that badge's
      URL is absent. */
  lemma {:induction false} ApplyBadgesUrlLast(st: BadgeState, badges: seq<Json>, i: nat)
    requires i < |badges| && BadgeIcon(badges[i]).Some?
    requires forall j :: i < j < |badges| ==> BadgeIcon(badges[j]).None?
    ensures ApplyBadges(st, badges).badge_url == BadgeIcon(badges[i]).value
  {
    if i < |badges| - 1 {
      var init := badges[..|badges| - 1];
      assert forall j :: 0 <= j < |init| ==> init[j] == badges[j];
      ApplyBadgesUrlLast(st, init, i);
    }
    ApplyBadgeEffect(ApplyBadges(st, badges[..|badges| - 1]), badges[|badges| - 1], Verified);
  }

  /** `parse_author` as a value: `None` when the name or the first avatar URL
      is missing or that URL has fewer than five `/`-separated pieces. The
      channel id is the fifth piece. */
  function AuthorOf(authorName: Json, authorPhoto: Json, authorBadges: Json): (r: Option<Author>)
    ensures r.None? <==>
      || AsStr(Field(authorName, "simpleText")).None?
      || ThumbnailUrl(authorPhoto).None?
      || CountChar(ThumbnailUrl(authorPhoto).value, '/') < 4
    ensures r.Some? ==>
      && r.value.name == Field(authorName, "simpleText").s
      && r.value.image_url == ThumbnailUrl(authorPhoto).value
      && r.value.channel_id == Split(r.value.image_url, '/')[4]
      && '/' !in r.value.channel_id
      && r.value.channel_url == ChannelUrlPrefix + r.value.channel_id
  {
    match AsStr(Field(authorName, "simpleText"))
    case None => None
    case Some(name) =>
      match ThumbnailUrl(authorPhoto)
      case None => None
      case Some(imageUrl) =>
        var pieces := Split(imageUrl, '/');
        if |pieces| < 5 then None
        else
          var channelId := pieces[4];
          var st := ApplyBadges(NoBadges, ItemsOrEmpty(authorBadges));
          Some(Author(name, channelId, ChannelUrlPrefix + channelId, imageUrl, st.badge_url,
                      st.is_verified, st.is_chat_owner, st.is_chat_sponsor, st.is_chat_moderator))
  }

  /** The body of the badge loop of `parse_author`, which updates its five
      locals in place. */
  method ReadBadge(badge: Json, badgeUrl: Option<string>, isVerified: bool, isChatOwner: bool,
                   isChatModerator: bool, isChatSponsor: bool)
    returns (badgeUrl': Option<string>, isVerified': bool, isChatOwner': bool,
             isChatModerator': bool, isChatSponsor': bool)
    ensures BadgeState(badgeUrl', isVerified', isChatOwner', isChatModerator', isChatSponsor')
            == ApplyBadge(BadgeState(badgeUrl, isVerified, isChatOwner, isChatModerator, isChatSponsor), badge)
  {
    badgeUrl' := ReadBadgeIcon(badge, badgeUrl);
    isVerified', isChatOwner', isChatModerator', isChatSponsor' :=
      isVerified, isChatOwner, isChatModerator, isChatSponsor;
    var role := ReadBadgeRole(badge);
    match role {
      case Some(Verified) => isVerified' := true;
      case Some(Moderator) => isChatModerator' := true;
      case Some(Owner) => isChatOwner' := true;
      case Some(Sponsor) => isChatSponsor' := true;
      case None =>
    }
  }

  /** The `icon` / `customThumbnail` half of a badge turn. */
  method ReadBadgeIcon(badge: Json, badgeUrl: Option<string>) returns (badgeUrl': Option<string>)
    ensures badgeUrl' == match BadgeIcon(badge) case Some(u) => u case None => badgeUrl
  {
    badgeUrl' := badgeUrl;
    match BadgeRenderer(badge) {
      case Some(br) =>
        match Get(br, "icon") {
          case Some(icon) =>
            badgeUrl' := ThumbnailUrl(icon);
          case None =>
            match Get(br, "customThumbnail") {
              case Some(custom) =>
                badgeUrl' := ThumbnailUrl(custom);
              case None =>
            }
        }
      case None =>
    }
  }

  /** The accessibility-label half of a badge turn. */
  method ReadBadgeRole(badge: Json) returns (role: Option<Role>)
    ensures role == BadgeRole(badge)
  {
    role := None;
    match BadgeRenderer(badge) {
      case Some(br) =>
        match AsStr(Field(Field(Field(br, "accessibility"), "accessibilityData"), "label")) {
          case Some(labelText) =>
            role := RoleOfLabel(Lower(labelText));
          case None =>
        }
      case None =>
    }
  }

  /** `parse_author`: the badge loop updates the five locals in place. */
  method ParseAuthor(authorName: Json, authorPhoto: Json, authorBadges: Json) returns (r: Option<Author>)
    ensures r == AuthorOf(authorName, authorPhoto, authorBadges)
  {
    var name := AsStr(Field(authorName, "simpleText"));
    if name.None? { return None; }
    var imageUrl := ThumbnailUrl(authorPhoto);
    if imageUrl.None? { return None; }
    var pieces := Split(imageUrl.value, '/');
    if |pieces| < 5 { return None; }
    var channelId := pieces[4];

    var badgeUrl: Option<string> := None;
    var isVerified, isChatOwner, isChatModerator, isChatSponsor := false, false, false, false;
    var badges := ItemsOrEmpty(authorBadges);
    var i := 0;
    while i < |badges|
      invariant 0 <= i <= |badges|
      invariant BadgeState(badgeUrl, isVerified, isChatOwner, isChatModerator, isChatSponsor)
                == ApplyBadges(NoBadges, badges[..i])
    {
      assert badges[..i + 1][..i] == badges[..i];
      badgeUrl, isVerified, isChatOwner, isChatModerator, isChatSponsor :=
        ReadBadge(badges[i], badgeUrl, isVerified, isChatOwner, isChatModerator, isChatSponsor);
      i := i + 1;
    }
    assert badges[..i] == badges;
    ghost var st := ApplyBadges(NoBadges, badges);
    assert AuthorOf(authorName, authorPhoto, authorBadges) == Some(Author(name.value, channelId,
      ChannelUrlPrefix + channelId, imageUrl.value, st.badge_url,
      st.is_verified, st.is_chat_owner, st.is_chat_sponsor, st.is_chat_moderator));
    r := Some(Author(name.value, channelId, ChannelUrlPrefix + channelId, imageUrl.value, badgeUrl,
                     isVerified, isChatOwner, isChatSponsor, isChatModerator));
  }

  // ---------------------------------------------------------------------
  // Timestamps
  // ---------------------------------------------------------------------

  /** `format_datetime`: the microsecond count truncated to milliseconds and
      rendered in UTC; an unparseable string renders as the epoch. */
  function FormatDatetime(timestampUsec: string): (r: string)
    ensures ParseI64(timestampUsec).Some? ==> r == FormatMillis(DivTrunc1000(ParseI64(timestampUsec).value))
    ensures ParseI64(timestampUsec).None? ==> r == FormatMillis(0)
  {
    var usec := match ParseI64(timestampUsec) case Some(v) => v case None => 0;
    FormatMillis(DivTrunc1000(usec))
  }

  /** The fields every kind reads the same way: `id`, and `timestampUsec`
      parsed as an `i64`, divided by 1000 toward zero and rendered in UTC. */
  predicate StampedFrom(m: ChatMessage, renderer: Json)
  {
    && AsStr(Field(renderer, "id")) == Some(m.id)
    && Field(renderer, "timestampUsec").Str?
    && var usec := ParseI64(Field(renderer, "timestampUsec").s);
       usec.Some? && m.timestamp == DivTrunc1000(usec.value) && m.datetime == FormatMillis(m.timestamp)
  }

  /** An item is dropped for a missing `id` or an unusable `timestampUsec`. */
  predicate HasStamp(renderer: Json)
  {
    && AsStr(Field(renderer, "id")).Some?
    && Field(renderer, "timestampUsec").Str?
    && ParseI64(Field(renderer, "timestampUsec").s).Some?
  }

  /** The message the four parsers build once every required field is
      present; only the kind, the runs, the money fields and the author vary. */
  function Stamped(messageType: string, renderer: Json, runs: seq<MessageRun>,
                   amountValue: Option<real>, amountString: Option<string>,
                   currency: Option<string>, bgColor: Option<UInt32>, author: Author): (m: ChatMessage)
    requires HasStamp(renderer)
    ensures StampedFrom(m, renderer)
    ensures m.message == PlainText(runs) && m.message_ex == Some(runs)
  {
    var timestampUsec := Field(renderer, "timestampUsec").s;
    var usec := ParseI64(timestampUsec).value;
    ChatMessage(messageType, AsStr(Field(renderer, "id")).value, CollectText(runs), Some(runs),
                DivTrunc1000(usec), FormatDatetime(timestampUsec), None,
                amountValue, amountString, currency, bgColor, author)
  }

  // ---------------------------------------------------------------------
  // The four renderer parsers
  // ---------------------------------------------------------------------

  function AuthorOfRenderer(renderer: Json): Option<Author>
  {
    AuthorOf(Field(renderer, "authorName"), Field(renderer, "authorPhoto"), Field(renderer, "authorBadges"))
  }

  /** `parse_text_message` */
  function ParseTextMessage(renderer: Json): (r: Option<ChatMessage>)
    ensures r.Some? <==> AuthorOfRenderer(renderer).Some? && HasStamp(renderer)
    ensures r.Some? ==>
      && WellFormedMessage(r.value) && StampedFrom(r.value, renderer)
      && r.value.message_type == "textMessage"
      && r.value.author == AuthorOfRenderer(renderer).value
      && r.value.message_ex == Some(MessageRuns(Field(Field(renderer, "message"), "runs")))
  {
    match AuthorOfRenderer(renderer)
    case None => None
    case Some(author) =>
      var runs := MessageRuns(Field(Field(renderer, "message"), "runs"));
      if !HasStamp(renderer) then None
      else Some(Stamped("textMessage", renderer, runs, None, None, None, None, author))
  }

  /** `parse_viewer_engagement_message`: no author is read. */
  function ParseViewerEngagementMessage(renderer: Json): (r: Option<ChatMessage>)
    ensures r.Some? <==> HasStamp(renderer)
    ensures r.Some? ==>
      && WellFormedMessage(r.value) && StampedFrom(r.value, renderer)
      && r.value.message_type == "viewerEngagementMessage"
      && r.value.author == EmptyAuthor
      && r.value.message_ex == Some(MessageRuns(Field(Field(renderer, "message"), "runs")))
  {
    var runs := MessageRuns(Field(Field(renderer, "message"), "runs"));
    if !HasStamp(renderer) then None
    else Some(Stamped("viewerEngagementMessage", renderer, runs, None, None, None, None, EmptyAuthor))
  }

  /** The run list of a paid item: empty when there is no `message` key. */
  function PaidRuns(renderer: Json): (runs: seq<MessageRun>)
    ensures !Has(renderer, "message") ==> runs == []
  {
    match Get(renderer, "message")
    case Some(msg) => MessageRuns(Field(msg, "runs"))
    case None => []
  }

  function AmountString(renderer: Json): Option<string>
  {
    AsStr(Field(Field(renderer, "purchaseAmountText"), "simpleText"))
  }

  /** The characters Rust's `f64` parser accepts at the start of a number:
      a sign, a digit, a point, or the first letter of `inf`, `infinity` or
      `nan` in either case. */
  const FloatLead: set<char> := {'+', '-', '.', '0', '1', '2', '3', '4', '5', '6', '7', '8', '9', 'i', 'I', 'n', 'N'}

  /** `parseF64` behaves like Rust's `f64` parser at least in rejecting any
      text that cannot start a number. */
  ghost predicate RejectsNonNumeric(parseF64: string -> Option<real>)
  {
    forall s :: parseF64(s).Some? ==> |s| > 0 && s[0] in FloatLead
  }

  /** `parse_paid_message`'s amount as written: the text with its commas
      removed, handed to the `f64` parser as it is; no amount text, no value. */
  function AmountValueAsWritten(amountString: Option<string>, parseF64: string -> Option<real>): (r: Option<real>)
    ensures amountString.None? ==> r.None?
    ensures amountString.Some? ==> r == parseF64(RemoveCommas(amountString.value))
  {
    match amountString
    case Some(a) => parseF64(RemoveCommas(a))
    case None => None
  }

  /** The characters a plain decimal amount can start with: a sign, a point
      or a digit. */
  predicate NumberLead(c: char)
  {
    c == '+' || c == '-' || c == '.' || IsDigit(c)
  }

  /** Corrected: the text without its leading currency mark, that is,
      without everything before the first sign, point or digit. */
  function DropCurrency(s: string): (r: string)
    ensures |r| <= |s| && r == s[|s| - |r|..]
    ensures forall i :: 0 <= i < |s| - |r| ==> !NumberLead(s[i])
    ensures |r| > 0 ==> NumberLead(r[0])
  {
    if |s| == 0 || NumberLead(s[0]) then s
    else
      var r := DropCurrency(s[1..]);
      assert s[1..][|s[1..]| - |r|..] == s[|s| - |r|..];
      r
  }

  /** Corrected: the amount with its commas and its currency mark removed,
      so that a currency-marked amount such as `"$1,234.56"` is read as
      1234.56 (see `MarkedAmountIsRead`). */
  function AmountValue(amountString: Option<string>, parseF64: string -> Option<real>): (r: Option<real>)
    ensures amountString.Some? ==> r == parseF64(DropCurrency(RemoveCommas(amountString.value)))
    ensures amountString.None? ==> r.None?
  {
    match amountString
    case Some(a) => parseF64(DropCurrency(RemoveCommas(a)))
    case None => None
  }

  /** Both agree on an amount that already starts like a number, so a sign
      or a point in front is kept by the correction. */
  lemma AmountValuesAgreeOnPlainNumbers(a: string, parseF64: string -> Option<real>)
    requires |a| > 0 && NumberLead(a[0])
    ensures AmountValue(Some(a), parseF64) == AmountValueAsWritten(Some(a), parseF64)
  {
    var r := RemoveCommas(a);
    assert r[0] == a[0] by {
      RemoveCommasKeepsHead(a);
    }
  }

  lemma RemoveCommasKeepsHead(a: string)
    requires |a| > 0 && a[0] != ','
    ensures |RemoveCommas(a)| > 0 && RemoveCommas(a)[0] == a[0]
  {
    if |a| > 1 {
      assert a[..|a| - 1][0] == a[0];
      RemoveCommasKeepsHead(a[..|a| - 1]);
    }
  }

  lemma {:induction false} RemoveCommasAppend(a: string, b: string)
    ensures RemoveCommas(a + b) == RemoveCommas(a) + RemoveCommas(b)
    decreases |b|
  {
    if |b| == 0 {
      assert a + b == a;
    } else {
      assert (a + b)[..|a + b| - 1] == a + b[..|b| - 1];
      RemoveCommasAppend(a, b[..|b| - 1]);
    }
  }

  /** As written, an amount that opens with a currency mark never yields a
      value: removing commas keeps that mark in front, and the `f64` parser
      rejects it. */
  lemma CurrencyAmountIsLost(a: string, parseF64: string -> Option<real>)
    requires RejectsNonNumeric(parseF64)
    requires |a| > 0 && a[0] != ',' && a[0] !in FloatLead
    ensures AmountValueAsWritten(Some(a), parseF64) == None
  {
    RemoveCommasKeepsHead(a);
  }

  /** Corrected, the parser sees the amount from its first sign, point or
      digit on, with no comma left: the currency mark no longer reaches it. */
  lemma CurrencyAmountIsRead(a: string, parseF64: string -> Option<real>)
    requires exists i :: 0 <= i < |a| && IsDigit(a[i])
    ensures var t := DropCurrency(RemoveCommas(a));
      && AmountValue(Some(a), parseF64) == parseF64(t)
      && |t| > 0 && NumberLead(t[0]) && ',' !in t
  {
    var i :| 0 <= i < |a| && IsDigit(a[i]);
    var r := RemoveCommas(a);
    RemoveCommasKeepsDigit(a, i);
    var j :| 0 <= j < |r| && IsDigit(r[j]);
    var t := DropCurrency(r);
    assert forall c :: c in t ==> c in r;
  }

  lemma {:induction false} RemoveCommasKeepsDigit(a: string, i: nat)
    requires i < |a| && IsDigit(a[i])
    ensures exists j :: 0 <= j < |RemoveCommas(a)| && IsDigit(RemoveCommas(a)[j])
  {
    var n := |a| - 1;
    if i == n {
      assert RemoveCommas(a) == RemoveCommas(a[..n]) + [a[n]];
      assert IsDigit(RemoveCommas(a)[|RemoveCommas(a)| - 1]);
    } else {
      RemoveCommasKeepsDigit(a[..n], i);
      var j :| 0 <= j < |RemoveCommas(a[..n])| && IsDigit(RemoveCommas(a[..n])[j]);
      assert RemoveCommas(a)[j] == RemoveCommas(a[..n])[j];
    }
  }

  /** A dollar amount with a thousands separator, `"$1,234.56"`, is lost
      as written. */
  lemma DollarAmountIsLost(parseF64: string -> Option<real>)
    requires RejectsNonNumeric(parseF64)
    ensures AmountValueAsWritten(Some("$1,234.56"), parseF64) == None
  {
    CurrencyAmountIsLost("$1,234.56", parseF64);
  }

  /** Corrected, a one-character currency mark in front of an amount with
      one thousands separator is dropped together with the separator:
      `"$1,234.56"` reaches the parser as `"1234.56"`. */
  lemma MarkedAmountIsRead(mark: char, high: string, low: string, parseF64: string -> Option<real>)
    requires !NumberLead(mark) && mark != ','
    requires |high| > 0 && NumberLead(high[0]) && ',' !in high && ',' !in low
    ensures AmountValue(Some([mark] + high + "," + low), parseF64) == parseF64(high + low)
  {
    var kept := [mark] + high;
    RemoveSeparator(kept, low);
    DropMark(mark, high + low);
    assert kept + low == [mark] + (high + low);
  }

  lemma RemoveSeparator(kept: string, low: string)
    requires ',' !in kept && ',' !in low
    ensures RemoveCommas(kept + "," + low) == kept + low
  {
    var s := kept + ",";
    assert s[..|s| - 1] == kept && s[|s| - 1] == ',';
    assert RemoveCommas(s) == kept;
    RemoveCommasAppend(s, low);
  }

  lemma DropMark(mark: char, rest: string)
    requires !NumberLead(mark) && |rest| > 0 && NumberLead(rest[0])
    ensures DropCurrency([mark] + rest) == rest
  {
    assert ([mark] + rest)[1..] == rest;
  }

  /** `parse_paid_message` for Super Chats and Super Stickers. The `f64`
      parser is `parseF64`; it sees the amount text with every comma removed
      and nothing else changed (see `AmountValueAsWritten`). */
  function ParsePaidMessage(renderer: Json, messageType: string, parseF64: string -> Option<real>): (r: Option<ChatMessage>)
    requires messageType == "superChat" || messageType == "superSticker"
    ensures r.Some? <==> AuthorOfRenderer(renderer).Some? && HasStamp(renderer)
    ensures r.Some? ==>
      && WellFormedMessage(r.value) && StampedFrom(r.value, renderer)
      && r.value.message_type == messageType
      && r.value.author == AuthorOfRenderer(renderer).value
      && r.value.message_ex == Some(PaidRuns(renderer))
      && r.value.amount_string == AmountString(renderer)
      && r.value.amount_value == AmountValueAsWritten(AmountString(renderer), parseF64)
      && r.value.currency == AsStr(Field(renderer, "currency"))
      && (r.value.bg_color.Some? <==> AsU64(Field(renderer, "headerBackgroundColor")).Some?)
      && (r.value.bg_color.Some? ==>
            r.value.bg_color.value == AsU64(Field(renderer, "headerBackgroundColor")).value % U32Bound)
  {
    match AuthorOfRenderer(renderer)
    case None => None
    case Some(author) =>
      var runs := PaidRuns(renderer);
      var amountString := AmountString(renderer);
      var amountValue := AmountValueAsWritten(amountString, parseF64);
      var bgColor := match AsU64(Field(renderer, "headerBackgroundColor"))
                     case Some(v) => Some(LowU32(v)) case None => None;
      if !HasStamp(renderer) then None
      else Some(Stamped(messageType, renderer, runs, amountValue, amountString,
                        AsStr(Field(renderer, "currency")), bgColor, author))
  }

  /** `parse_membership_message`: the text comes from `headerSubtext`. */
  function ParseMembershipMessage(renderer: Json): (r: Option<ChatMessage>)
    ensures r.Some? <==> AuthorOfRenderer(renderer).Some? && HasStamp(renderer)
    ensures r.Some? ==>
      && WellFormedMessage(r.value) && StampedFrom(r.value, renderer)
      && r.value.message_type == "newSponsor"
      && r.value.author == AuthorOfRenderer(renderer).value
      && r.value.message_ex == Some(MessageRuns(Field(Field(renderer, "headerSubtext"), "runs")))
  {
    match AuthorOfRenderer(renderer)
    case None => None
    case Some(author) =>
      var runs := MessageRuns(Field(Field(renderer, "headerSubtext"), "runs"));
      if !HasStamp(renderer) then None
      else Some(Stamped("newSponsor", renderer, runs, None, None, None, None, author))
  }

  // ---------------------------------------------------------------------
  // Dispatch
  // ---------------------------------------------------------------------

  /** The six renderer kinds, as the item's keys name them. */
  datatype ItemKind =
    | TextItem(renderer: Json)
    | PaidItem(renderer: Json)
    | StickerItem(renderer: Json)
    | MembershipItem(renderer: Json)
    | EngagementItem(renderer: Json)
    | PlaceholderItem
    | UnsupportedItem

  /** The renderer keys are tried in a fixed order; the first present wins. */
  function ClassifyItem(item: Json): (k: ItemKind)
    ensures k.TextItem? <==> Has(item, "liveChatTextMessageRenderer")
    ensures k.PaidItem? <==>
      && !Has(item, "liveChatTextMessageRenderer")
      && Has(item, "liveChatPaidMessageRenderer")
    ensures k.StickerItem? <==>
      && !Has(item, "liveChatTextMessageRenderer") && !Has(item, "liveChatPaidMessageRenderer")
      && Has(item, "liveChatPaidStickerRenderer")
    ensures k.MembershipItem? <==>
      && !Has(item, "liveChatTextMessageRenderer") && !Has(item, "liveChatPaidMessageRenderer")
      && !Has(item, "liveChatPaidStickerRenderer")
      && Has(item, "liveChatMembershipItemRenderer")
    ensures k.EngagementItem? <==>
      && !Has(item, "liveChatTextMessageRenderer") && !Has(item, "liveChatPaidMessageRenderer")
      && !Has(item, "liveChatPaidStickerRenderer") && !Has(item, "liveChatMembershipItemRenderer")
      && Has(item, "liveChatViewerEngagementMessageRenderer")
    ensures k.PlaceholderItem? <==>
      && !Has(item, "liveChatTextMessageRenderer") && !Has(item, "liveChatPaidMessageRenderer")
      && !Has(item, "liveChatPaidStickerRenderer") && !Has(item, "liveChatMembershipItemRenderer")
      && !Has(item, "liveChatViewerEngagementMessageRenderer")
      && Has(item, "liveChatPlaceholderItemRenderer")
    ensures k.TextItem? ==> k.renderer == Field(item, "liveChatTextMessageRenderer")
    ensures k.PaidItem? ==> k.renderer == Field(item, "liveChatPaidMessageRenderer")
    ensures k.StickerItem? ==> k.renderer == Field(item, "liveChatPaidStickerRenderer")
    ensures k.MembershipItem? ==> k.renderer == Field(item, "liveChatMembershipItemRenderer")
    ensures k.EngagementItem? ==> k.renderer == Field(item, "liveChatViewerEngagementMessageRenderer")
    ensures k.UnsupportedItem? <==>
      forall key :: key in RendererKeys ==> !Has(item, key)
  {
    match Get(item, "liveChatTextMessageRenderer")
    case Some(r) => TextItem(r)
    case None =>
    match Get(item, "liveChatPaidMessageRenderer")
    case Some(r) => PaidItem(r)
    case None =>
    match Get(item, "liveChatPaidStickerRenderer")
    case Some(r) => StickerItem(r)
    case None =>
    match Get(item, "liveChatMembershipItemRenderer")
    case Some(r) => MembershipItem(r)
    case None =>
    match Get(item, "liveChatViewerEngagementMessageRenderer")
    case Some(r) => EngagementItem(r)
    case None =>
    match Get(item, "liveChatPlaceholderItemRenderer")
    case Some(_) => PlaceholderItem
    case None => UnsupportedItem
  }

  const RendererKeys: set<string> := {
    "liveChatTextMessageRenderer", "liveChatPaidMessageRenderer", "liveChatPaidStickerRenderer",
    "liveChatMembershipItemRenderer", "liveChatViewerEngagementMessageRenderer",
    "liveChatPlaceholderItemRenderer"}

  /** The message one chat item yields, if any. */
  function ParseChatItem(item: Json, parseF64: string -> Option<real>): (r: Option<ChatMessage>)
    ensures r.Some? ==> WellFormedMessage(r.value)
  {
    match ClassifyItem(item)
    case TextItem(r) => ParseTextMessage(r)
    case PaidItem(r) => ParsePaidMessage(r, "superChat", parseF64)
    case StickerItem(r) => ParsePaidMessage(r, "superSticker", parseF64)
    case MembershipItem(r) => ParseMembershipMessage(r)
    case EngagementItem(r) => ParseViewerEngagementMessage(r)
    case PlaceholderItem => None
    case UnsupportedItem => None
  }

  /** The message type follows the renderer the item carries; placeholders
      and unknown renderers yield nothing. */
  lemma ChatItemType(item: Json, parseF64: string -> Option<real>)
    ensures var k := ClassifyItem(item);
      k.PlaceholderItem? || k.UnsupportedItem? ==> ParseChatItem(item, parseF64).None?
    ensures var r := ParseChatItem(item, parseF64);
      r.Some? ==> r.value.message_type == match ClassifyItem(item)
        case TextItem(_) => "textMessage"
        case PaidItem(_) => "superChat"
        case StickerItem(_) => "superSticker"
        case MembershipItem(_) => "newSponsor"
        case _ => "viewerEngagementMessage"
  {
  }

  /** One entry of `actions`: only an `addChatItemAction` carries an item. */
  function ParseAction(action: Json, parseF64: string -> Option<real>): (r: Option<ChatMessage>)
    ensures !Has(action, "addChatItemAction") ==> r.None?
    ensures r.Some? ==> WellFormedMessage(r.value)
  {
    match Get(action, "addChatItemAction")
    case Some(add) => ParseChatItem(Field(add, "item"), parseF64)
    case None => None
  }

  /** The messages of an action list, in list order. */
  function ParseActions(actions: seq<Json>, parseF64: string -> Option<real>): (r: seq<ChatMessage>)
    ensures |r| <= |actions|
    ensures forall i :: 0 <= i < |r| ==> WellFormedMessage(r[i])
  {
    if |actions| == 0 then []
    else
      ParseActions(actions[..|actions| - 1], parseF64) + ActionMessages(actions[|actions| - 1], parseF64)
  }

  function ActionMessages(action: Json, parseF64: string -> Option<real>): (r: seq<ChatMessage>)
    ensures |r| <= 1 && forall i :: 0 <= i < |r| ==> WellFormedMessage(r[i])
  {
    match ParseAction(action, parseF64) case Some(m) => [m] case None => []
  }

  /** Kept items keep their batch order: what a list yields is what its
      two halves yield, one after the other. */
  lemma {:induction false} ParseActionsAppend(xs: seq<Json>, ys: seq<Json>, parseF64: string -> Option<real>)
    ensures ParseActions(xs + ys, parseF64) == ParseActions(xs, parseF64) + ParseActions(ys, parseF64)
  {
    if |ys| == 0 {
      assert xs + ys == xs;
    } else {
      assert (xs + ys)[..|xs + ys| - 1] == xs + ys[..|ys| - 1];
      ParseActionsAppend(xs, ys[..|ys| - 1], parseF64);
    }
  }

  /** The chat items that fall in no known renderer kind, for the log. */
  function UnsupportedItems(actions: seq<Json>): seq<Json>
  {
    if |actions| == 0 then []
    else UnsupportedItems(actions[..|actions| - 1]) + ActionUnsupported(actions[|actions| - 1])
  }

  function ActionUnsupported(action: Json): seq<Json>
  {
    match Get(action, "addChatItemAction")
    case Some(add) => if ClassifyItem(Field(add, "item")).UnsupportedItem? then [Field(add, "item")] else []
    case None => []
  }

  // ---------------------------------------------------------------------
  // Continuation
  // ---------------------------------------------------------------------

  /** The continuation data an entry of `continuations` holds: timed data
      first, then invalidation data, then reload data. */
  function ContinuationData(entry: Json): Option<Json>
  {
    match Get(entry, "timedContinuationData")
    case Some(d) => Some(d)
    case None =>
    match Get(entry, "invalidationContinuationData")
    case Some(d) => Some(d)
    case None => Get(entry, "reloadContinuationData")
  }

  /** The token (empty when missing) and the wait (0 when missing) of some
      continuation data. */
  function TokenAndTimeout(data: Json): (string, UInt64)
  {
    (StrOrEmpty(Field(data, "continuation")),
     match AsU64(Field(data, "timeoutMs")) case Some(t) => t case None => 0)
  }

  /** The first entry holding continuation data decides; later entries are
      never looked at. */
  function FirstContinuation(entries: seq<Json>): (r: Option<(string, UInt64)>)
    ensures r.None? <==> forall i :: 0 <= i < |entries| ==> ContinuationData(entries[i]).None?
    ensures r.Some? ==> exists i :: (0 <= i < |entries| && ContinuationData(entries[i]).Some?
      && (forall j :: 0 <= j < i ==> ContinuationData(entries[j]).None?)
      && r.value == TokenAndTimeout(ContinuationData(entries[i]).value))
  {
    if |entries| == 0 then None
    else match ContinuationData(entries[0])
      case Some(d) => Some(TokenAndTimeout(d))
      case None =>
        var r := FirstContinuation(entries[1..]);
        assert r.Some? ==> exists i :: (0 <= i < |entries| && ContinuationData(entries[i]).Some?
          && (forall j :: 0 <= j < i ==> ContinuationData(entries[j]).None?)
          && r.value == TokenAndTimeout(ContinuationData(entries[i]).value)) by {
          if r.Some? {
            var k :| 0 <= k < |entries[1..]| && ContinuationData(entries[1..][k]).Some?
              && (forall j :: 0 <= j < k ==> ContinuationData(entries[1..][j]).None?)
              && r.value == TokenAndTimeout(ContinuationData(entries[1..][k]).value);
            assert forall j :: 0 <= j < k + 1 ==> ContinuationData(entries[j]).None? by {
              forall j | 0 <= j < k + 1 ensures ContinuationData(entries[j]).None? {
                if j > 0 { assert entries[j] == entries[1..][j - 1]; }
              }
            }
          }
        }
        assert r.None? ==> forall i :: 0 <= i < |entries| ==> ContinuationData(entries[i]).None? by {
          if r.None? {
            forall i | 0 <= i < |entries| ensures ContinuationData(entries[i]).None? {
              if i > 0 { assert entries[i] == entries[1..][i - 1]; }
            }
          }
        }
        r
  }

  // ---------------------------------------------------------------------
  // One response
  // ---------------------------------------------------------------------

  /** What one successful poll produces. */
  datatype Batch = Batch(messages: seq<ChatMessage>, continuation: string, timeout: UInt64)

  const MissingContinuation: string := "Failed to retrieve next continuation token"

  function LiveChatContinuation(resp: Json): Json
  {
    Field(Field(resp, "continuationContents"), "liveChatContinuation")
  }

  function Actions(resp: Json): seq<Json>
  {
    ItemsOrEmpty(Field(LiveChatContinuation(resp), "actions"))
  }

  function Continuations(resp: Json): seq<Json>
  {
    ItemsOrEmpty(Field(LiveChatContinuation(resp), "continuations"))
  }

  /** The normalised content of a decoded `get_live_chat` response: the
      messages of its actions in order, and the first continuation, which
      must carry a non-empty token. */
  function LiveChat(resp: Json, parseF64: string -> Option<real>): (r: Result<Batch, string>)
    ensures r.Err? <==> match FirstContinuation(Continuations(resp))
                        case None => true
                        case Some(c) => c.0 == ""
    ensures r.Err? ==> r.error == MissingContinuation
    ensures r.Ok? ==>
      && r.value.continuation != ""
      && r.value.messages == ParseActions(Actions(resp), parseF64)
      && (FirstContinuation(Continuations(resp)) == Some((r.value.continuation, r.value.timeout)))
  {
    match FirstContinuation(Continuations(resp))
    case None => Err(MissingContinuation)
    case Some((token, timeout)) =>
      if token == "" then Err(MissingContinuation)
      else Ok(Batch(ParseActions(Actions(resp), parseF64), token, timeout))
  }

  /** Lines 98-180 of `get_chat_messages`: collect the messages, find the
      continuation, and fail when its token is empty. */
  method NormaliseResponse(resp: Json, parseF64: string -> Option<real>)
    returns (r: Result<Batch, string>, unsupported: seq<Json>)
    ensures r == LiveChat(resp, parseF64)
    ensures unsupported == UnsupportedItems(Actions(resp))
  {
    var messages;
    messages, unsupported := CollectMessages(Actions(resp), parseF64);
    var nextContinuation, timeout := FindContinuation(Continuations(resp));
    if nextContinuation == "" {
      return Err(MissingContinuation), unsupported;
    }
    r := Ok(Batch(messages, nextContinuation, timeout));
  }

  /** The action loop: pushes every parsed message and logs every
      unsupported item. */
  method CollectMessages(actions: seq<Json>, parseF64: string -> Option<real>)
    returns (messages: seq<ChatMessage>, unsupported: seq<Json>)
    ensures messages == ParseActions(actions, parseF64)
    ensures unsupported == UnsupportedItems(actions)
  {
    messages, unsupported := [], [];
    var i := 0;
    while i < |actions|
      invariant 0 <= i <= |actions|
      invariant messages == ParseActions(actions[..i], parseF64)
      invariant unsupported == UnsupportedItems(actions[..i])
    {
      CollectStep(actions, i, parseF64);
      var found, skipped := HandleAction(actions[i], parseF64);
      messages := messages + found;
      unsupported := unsupported + skipped;
      i := i + 1;
    }
    assert actions[..i] == actions;
  }

  lemma CollectStep(actions: seq<Json>, i: nat, parseF64: string -> Option<real>)
    requires i < |actions|
    ensures ParseActions(actions[..i + 1], parseF64) == ParseActions(actions[..i], parseF64) + ActionMessages(actions[i], parseF64)
    ensures UnsupportedItems(actions[..i + 1]) == UnsupportedItems(actions[..i]) + ActionUnsupported(actions[i])
  {
    assert actions[..i + 1][..i] == actions[..i];
  }

  /** The body of the action loop for one action. */
  method HandleAction(action: Json, parseF64: string -> Option<real>)
    returns (found: seq<ChatMessage>, skipped: seq<Json>)
    ensures found == ActionMessages(action, parseF64)
    ensures skipped == ActionUnsupported(action)
  {
    found, skipped := [], [];
    match Get(action, "addChatItemAction") {
      case Some(add) =>
        var item := Field(add, "item");
        match ParseChatItem(item, parseF64) {
          case Some(m) => found := [m];
          case None =>
        }
        if ClassifyItem(item).UnsupportedItem? {
          skipped := [item];
        }
      case None =>
    }
  }

  /** The entry at `j` decides when it holds continuation data and no
      earlier one does. */
  lemma {:induction false} FirstContinuationAt(entries: seq<Json>, j: nat)
    requires j < |entries| && ContinuationData(entries[j]).Some?
    requires forall k :: 0 <= k < j ==> ContinuationData(entries[k]).None?
    ensures FirstContinuation(entries) == Some(TokenAndTimeout(ContinuationData(entries[j]).value))
  {
    if j > 0 {
      assert entries[1..][j - 1] == entries[j];
      assert forall k :: 0 <= k < j - 1 ==> entries[1..][k] == entries[k + 1];
      FirstContinuationAt(entries[1..], j - 1);
    }
  }

  /** One turn of the continuation loop: the entry's token and wait, if it
      holds timed, invalidation or reload data (tried in that order). */
  method ReadContinuation(entry: Json) returns (found: Option<(string, UInt64)>)
    ensures found == match ContinuationData(entry) case Some(d) => Some(TokenAndTimeout(d)) case None => None
  {
    match Get(entry, "timedContinuationData") {
      case Some(data) =>
        return Some((StrOrEmpty(Field(data, "continuation")),
                     match AsU64(Field(data, "timeoutMs")) case Some(t) => t case None => 0));
      case None =>
    }
    match Get(entry, "invalidationContinuationData") {
      case Some(data) =>
        return Some((StrOrEmpty(Field(data, "continuation")),
                     match AsU64(Field(data, "timeoutMs")) case Some(t) => t case None => 0));
      case None =>
    }
    match Get(entry, "reloadContinuationData") {
      case Some(data) =>
        return Some((StrOrEmpty(Field(data, "continuation")),
                     match AsU64(Field(data, "timeoutMs")) case Some(t) => t case None => 0));
      case None =>
    }
    return None;
  }

  /** The continuation loop: stops at the first entry holding timed,
      invalidation or reload data; the token stays empty and the wait 0
      when no entry does. */
  method FindContinuation(entries: seq<Json>) returns (nextContinuation: string, timeout: UInt64)
    ensures FirstContinuation(entries).Some? ==> FirstContinuation(entries) == Some((nextContinuation, timeout))
    ensures FirstContinuation(entries).None? ==> nextContinuation == "" && timeout == 0
  {
    nextContinuation, timeout := "", 0;
    var j := 0;
    while j < |entries|
      invariant 0 <= j <= |entries|
      invariant forall k :: 0 <= k < j ==> ContinuationData(entries[k]).None?
    {
      var found := ReadContinuation(entries[j]);
      if found.Some? {
        FirstContinuationAt(entries, j);
        nextContinuation, timeout := found.value.0, found.value.1;
        return;
      }
      j := j + 1;
    }
  }

  const MissingInitialToken: string := "Failed to get continuation token"

  /** Where the watch page's `ytInitialData` keeps the first chat token. */
  function InitialTokenField(v: Json): Json
  {
    var chat := Field(Field(Field(Field(v, "contents"), "twoColumnWatchNextResults"),
                            "conversationBar"), "liveChatRenderer");
    Field(Field(Elem(Field(chat, "continuations"), 0), "reloadContinuationData"), "continuation")
  }

  /** The token `get_initial_data` seeds the service with, read from the
      already-decoded `ytInitialData`: an error unless that path ends in a
      string. */
  function InitialContinuation(v: Json): (r: Result<string, string>)
    ensures r.Err? ==> r.error == MissingInitialToken
    ensures r.Ok? ==> Has(v, "contents") && InitialTokenField(v) == Str(r.value)
    ensures !InitialTokenField(v).Str? ==> r.Err?
  {
    match AsStr(InitialTokenField(v))
    case Some(token) => Ok(token)
    case None => Err(MissingInitialToken)
  }

  /** The smallest `ytInitialData` carrying `token` on that path. */
  function InitialDataWith(token: string): Json
  {
    Obj([("contents", Obj([("twoColumnWatchNextResults", Obj([("conversationBar",
      Obj([("liveChatRenderer", Obj([("continuations", Arr([
        Obj([("reloadContinuationData", Obj([("continuation", Str(token))]))])]))]))]))]))]))])
  }

  /** Reading the token back from a document built around it gives it back,
      and a document without `contents` gives the error. */
  lemma InitialContinuationRoundTrip(token: string)
    ensures InitialContinuation(InitialDataWith(token)) == Ok(token)
    ensures InitialContinuation(Obj([])) == Err(MissingInitialToken)
  {
  }

  datatype Request = Request(url: string, body: Json)

  /** The POST of one poll: the API key in the URL, the client version and
      the continuation token in the JSON body. */
  function ChatRequest(continuation: string, apiKey: string, clientVersion: string): Request
  {
    Request(
      "https://www.youtube.com/youtubei/v1/live_chat/get_live_chat?key=" + apiKey,
      Obj([("context", Obj([("client", Obj([("clientName", Str("WEB")),
                                             ("clientVersion", Str(clientVersion))]))])),
           ("continuation", Str(continuation))]))
  }

  const RequestFailed: string := "request failed"

  /** What `get_chat_messages` returns, given the transport `post` (which
      yields nothing when the request fails or the body is not JSON). */
  function FetchChatMessages(post: Request -> Option<Json>, continuation: string, apiKey: string,
                             clientVersion: string, parseF64: string -> Option<real>): (r: Result<Batch, string>)
    ensures var response := post(ChatRequest(continuation, apiKey, clientVersion));
      && (response.None? ==> r == Err(RequestFailed))
      && (response.Some? ==> r == LiveChat(response.value, parseF64))
    ensures r.Err? ==> r.error == RequestFailed || r.error == MissingContinuation
    ensures r.Ok? ==> r.value.continuation != ""
  {
    match post(ChatRequest(continuation, apiKey, clientVersion))
    case None => Err(RequestFailed)
    case Some(resp) => LiveChat(resp, parseF64)
  }

  /** `get_chat_messages` */
  method GetChatMessages(post: Request -> Option<Json>, continuation: string, apiKey: string,
                         clientVersion: string, parseF64: string -> Option<real>)
    returns (r: Result<Batch, string>, unsupported: seq<Json>)
    ensures r == FetchChatMessages(post, continuation, apiKey, clientVersion, parseF64)
    ensures r.Ok? ==> r.value.continuation != ""
  {
    var resp := post(ChatRequest(continuation, apiKey, clientVersion));
    if resp.None? {
      return Err(RequestFailed), [];
    }
    r, unsupported := NormaliseResponse(resp.value, parseF64);
  }
}
