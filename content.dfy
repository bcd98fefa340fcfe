/**
 * The pure formatters: the guild predicate and the text of a mirrored
 * message, for the handlers (handlers.py) and for the older single-file
 * bot (bot.py).
 */
module Content {
  import opened Transport
  import opened Ids

  /** The link glyph of handlers.py, kept exactly as its bytes decode
      there (four characters), and treated as an opaque constant. */
  const LinkGlyph: string := "\U{F0}\U{178}\U{201D}\U{2014}"

  /** The link glyph of bot.py: U+1F517, LINK SYMBOL. */
  const LegacyLinkGlyph: string := "\U{1F517}"

  /** The connector bot.py puts before a thread mention: U+2192. */
  const ThreadArrow: string := "\U{2192}"

  predicate NoNewline(s: string) {
    '\n' !in s
  }

  /** `is_allowed_guild`: a message is mirrored only from a guild, and only
      from one of the configured guilds. */
  predicate IsAllowedGuild(guild: Option<nat>, allowed: set<nat>)
  {
    guild.Some? && guild.value in allowed
  }

  /** The bold author badge: none for bot authors, the display name when it
      is present and non-empty, a fixed placeholder otherwise. */
  function AuthorBadge(a: Author): (r: Option<string>)
    ensures r.None? <==> a.bot
    ensures r.Some? ==> |r.value| >= 4 && r.value[..2] == "**" && r.value[|r.value| - 2..] == "**"
    ensures !a.bot && a.displayName.Some? && a.displayName.value != "" ==> r == Some("**" + a.displayName.value + "**")
    ensures !a.bot && (a.displayName.None? || a.displayName.value == "") ==> r == Some("**Unknown User**")
  {
    if a.bot then None
    else if a.displayName.Some? && a.displayName.value != "" then Some("**" + a.displayName.value + "**")
    else Some("**Unknown User**")
  }

  /** The first line of a mirrored message (handlers.py). */
  function Header(m: Message): string
  {
    match AuthorBadge(m.author)
    case Some(badge) => badge + " " + LinkGlyph + " " + m.jumpUrl
    case None => LinkGlyph + " " + m.jumpUrl
  }

  /** `"\n".join(parts)` where `parts` is the header followed by the body
      only when the body is non-empty. */
  function JoinLines(header: string, body: string): string
  {
    if body == "" then header else header + "\n" + body
  }

  /** Splits a text at its first line break: the first line, and everything
      after that one break ("" when there is none). */
  function SplitFirstLine(s: string): (string, string)
  {
    if s == [] then ("", "")
    else if s[0] == '\n' then ("", s[1..])
    else
      var (line, rest) := SplitFirstLine(s[1..]);
      ([s[0]] + line, rest)
  }

  /** A header without line breaks and the body are recovered from their
      join: the body follows exactly one line break, and only when non-empty. */
  lemma {:induction false} SplitJoinLines(header: string, body: string)
    requires NoNewline(header)
    ensures SplitFirstLine(JoinLines(header, body)) == (header, body)
    ensures body == "" <==> JoinLines(header, body) == header
  {
    if header == [] {
      if body != "" {
        assert JoinLines(header, body) == ['\n'] + body;
        assert (['\n'] + body)[1..] == body;
      }
    } else {
      assert header[0] in header;
      assert NoNewline(header[1..]) by {
        forall i | 0 <= i < |header[1..]| ensures header[1..][i] != '\n' {
          assert header[1..][i] == header[i + 1];
          assert header[i + 1] in header;
        }
      }
      SplitJoinLines(header[1..], body);
      var s := JoinLines(header, body);
      assert s[0] == header[0];
      assert s[1..] == JoinLines(header[1..], body);
      assert [header[0]] + header[1..] == header;
    }
  }

  /** `build_content`: the header, then the message text on the following
      line when it is non-empty. */
  function BuildContent(m: Message): string
  {
    JoinLines(Header(m), m.content)
  }

  /** Whether the first line shows an author badge tells whether the author
      was a bot: the glyph never starts with `*`. */
  lemma HeaderShowsBadge(m: Message)
    ensures |Header(m)| >= 2 && (Header(m)[..2] == "**" <==> !m.author.bot)
    ensures |Header(m)| >= |m.jumpUrl| && Header(m)[|Header(m)| - |m.jumpUrl|..] == m.jumpUrl
  {
    var h := Header(m);
    match AuthorBadge(m.author)
    case Some(badge) =>
      assert h == badge + (" " + LinkGlyph + " " + m.jumpUrl);
      assert h[..2] == badge[..2];
    case None =>
      assert h == LinkGlyph + (" " + m.jumpUrl);
      assert h[0] == LinkGlyph[0];
  }

  /** A mirrored message reads back as its header and the source text,
      provided the display name and the jump URL hold no line break. */
  lemma BuildContentLines(m: Message)
    requires NoNewline(m.jumpUrl)
    requires m.author.displayName.Some? ==> NoNewline(m.author.displayName.value)
    ensures SplitFirstLine(BuildContent(m)) == (Header(m), m.content)
    ensures m.content == "" <==> BuildContent(m) == Header(m)
  {
    match AuthorBadge(m.author) {
      case Some(badge) =>
        assert NoNewline(badge);
      case None =>
    }
    assert NoNewline(Header(m));
    SplitJoinLines(Header(m), m.content);
  }

  /** The header of bot.py: a mention of the author, the link glyph, the
      jump URL and, for a message in a thread, an arrow and a mention of
      the thread. */
  function LegacyHeader(m: Message): string
  {
    "<@" + DecimalString(m.author.id) + "> " + LegacyLinkGlyph + " " + m.jumpUrl
      + (if m.inThread then " " + ThreadArrow + " <#" + DecimalString(m.channelId) + ">" else "")
  }

  /** The text bot.py sends: its header, then the message text on the
      following line when it is non-empty. */
  function LegacyContent(m: Message): string
  {
    JoinLines(LegacyHeader(m), m.content)
  }

  /** The bot.py header opens with a mention from which the author id reads
      back, and ends with the thread mention exactly for a thread message. */
  lemma LegacyHeaderParts(m: Message)
    ensures var h := LegacyHeader(m);
      var mention := "<@" + DecimalString(m.author.id) + ">";
      |h| > |mention| && h[..|mention|] == mention
      && ParseDecimal(mention[2..|mention| - 1]) == m.author.id
    ensures var h := LegacyHeader(m);
      var suffix := " " + ThreadArrow + " <#" + DecimalString(m.channelId) + ">";
      if m.inThread then |h| > |suffix| && h[|h| - |suffix|..] == suffix
      else h[|h| - |m.jumpUrl|..] == m.jumpUrl
  {
    var id := DecimalString(m.author.id);
    var mention := "<@" + id + ">";
    var rest := " " + LegacyLinkGlyph + " " + m.jumpUrl
      + (if m.inThread then " " + ThreadArrow + " <#" + DecimalString(m.channelId) + ">" else "");
    assert LegacyHeader(m) == mention + rest;
    assert mention[2..|mention| - 1] == id;
    ParseDecimalString(m.author.id);
  }

  /** The bot.py text reads back as its header and the source text. */
  lemma LegacyContentLines(m: Message)
    requires NoNewline(m.jumpUrl)
    ensures SplitFirstLine(LegacyContent(m)) == (LegacyHeader(m), m.content)
    ensures m.content == "" <==> LegacyContent(m) == LegacyHeader(m)
  {
    DecimalNoNewline(m.author.id);
    DecimalNoNewline(m.channelId);
    assert NoNewline(LegacyHeader(m));
    SplitJoinLines(LegacyHeader(m), m.content);
  }
}
