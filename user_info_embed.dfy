/**
 * `getUserInfoEmbed`: the embed the Utility plugin posts about a user,
 * reduced to which fields it has, in which order, and what each field is
 * made of. Lookups (the user, the member, the stored cases) are inputs;
 * rendered timestamps, avatars and the exact text and whitespace of field
 * values are not modelled: a value is the list of lines it is made of.
 */
module UserInfoEmbed {
  import opened Wrappers
  import opened Strings
  import opened Roles
  import opened Cases

  /** A chat user: id, bot flag, username, legacy discriminator (`"0"` when retired) and display name. */
  datatype User = User(id: string, bot: bool, username: string, discriminator: string, globalName: Option<string>)

  /** What resolving the user id gave: nothing, the `UnknownUser` placeholder, or a user. */
  datatype UserLookup = NotFound | Unknown | Resolved(user: User)

  /** A member's voice state; `mute` and `deaf` are the client's combined flags. */
  datatype VoiceState = VoiceState(
    channelId: Option<string>, mute: bool, deaf: bool,
    serverMute: bool, serverDeaf: bool, selfMute: bool, selfDeaf: bool)

  /** The user's membership in the guild. */
  datatype Member = Member(nickname: Option<string>, roles: seq<Role>, voice: VoiceState)

  /** The guild: its id and the cached channels, by id, with their names. */
  datatype Guild = Guild(id: string, channels: map<string, Option<string>>)

  /** One line of the user-information field; timestamps are left out of the created and joined lines. */
  datatype InfoLine =
    | ProfileLine(profileId: string)
    | IdLine(userId: string)
    | UsernameLine(username: string)
    | DiscriminatorLine(discriminator: string)
    | DisplayNameLine(displayName: string)
    | NicknameLine(nickname: string)
    | MentionLine(mentionId: string)
    | CreatedLine
    | JoinedLine(added: bool)
    | RolesLine(text: string)

  /** One line of the voice-information field. */
  datatype VoiceLine = CurrentChannel(channelName: string) | ServerMuted | ServerDeafened | SelfMuted | SelfDeafened

  datatype Field =
    | UserInformation(isBot: bool, lines: seq<InfoLine>)
    | NotOnServerNote(noteIsBot: bool)
    | VoiceInformation(voiceLines: seq<VoiceLine>)
    | MemberInformation(warningIsBot: bool)
    | CasesField(summary: CaseSummary)
  {
    /** The field's name, after the padding that precedes every name. */
    function Name(): string {
      match this
      case UserInformation(bot, _) => (if bot then "Bot" else "User") + " information"
      case NotOnServerNote(_) => "!! NOTE !!"
      case VoiceInformation(_) => "Voice information"
      case MemberInformation(_) => "Member information"
      case CasesField(_) => "Cases"
    }
  }

  /** The embed's author line: "Bot" or "User", and whether the icon is the member's avatar rather than the user's. */
  datatype Author = Author(isBot: bool, iconFromMember: bool)

  datatype Embed = Embed(author: Author, fields: seq<Field>)

  /** The single field of the compact embed: profile, creation and, for a member, joining. */
  function CompactInfoLines(user: User, isMember: bool): (lines: seq<InfoLine>)
    ensures |lines| == if isMember then 3 else 2
    ensures lines[0] == ProfileLine(user.id) && lines[1] == CreatedLine
    ensures isMember ==> lines[2] == JoinedLine(user.bot)
  {
    [ProfileLine(user.id), CreatedLine] + (if isMember then [JoinedLine(user.bot)] else [])
  }

  /** The lines every full user-information field is made of, with a member or without. */
  function InfoLinesFront(user: User): seq<InfoLine>
  {
    [IdLine(user.id), UsernameLine(user.username)]
      + (if user.discriminator != "0" then [DiscriminatorLine(user.discriminator)] else [])
      + (if Truthy(user.globalName) then [DisplayNameLine(user.globalName.value)] else [])
  }

  /** The lines of the full user-information field, in the order they are pushed. */
  function FullInfoLines(user: User, member: Option<Member>, guildId: string): (lines: seq<InfoLine>)
    ensures 4 <= |lines| <= 9
  {
    var nickname := if member.Some? then [NicknameLine(member.value.nickname.GetOr("*no nickname defined*"))] else [];
    var membership :=
      if member.Some? then [JoinedLine(user.bot), RolesLine(RolesText(member.value.roles, guildId))] else [];
    InfoLinesFront(user) + nickname + [MentionLine(user.id), CreatedLine] + membership
  }

  /**
   * The full user-information field starts with the id and the username;
   * the discriminator line needs a discriminator other than "0" and the
   * display-name line a non-empty display name.
   */
  lemma FullInfoLinesFront(user: User, member: Option<Member>, guildId: string)
    ensures var lines := FullInfoLines(user, member, guildId);
      && lines[0] == IdLine(user.id) && lines[1] == UsernameLine(user.username)
      && (DiscriminatorLine(user.discriminator) in lines <==> user.discriminator != "0")
      && (Truthy(user.globalName) ==> DisplayNameLine(user.globalName.value) in lines)
      && (!Truthy(user.globalName) ==> forall i :: 0 <= i < |lines| ==> !lines[i].DisplayNameLine?)
  {
  }

  /**
   * With a member, the full user-information field has the nickname and
   * joined lines and ends with the roles line; it always mentions the user
   * and gives the creation time.
   */
  lemma FullInfoLinesWithMember(user: User, member: Member, guildId: string)
    ensures var lines := FullInfoLines(user, Some(member), guildId);
      && MentionLine(user.id) in lines && CreatedLine in lines
      && NicknameLine(member.nickname.GetOr("*no nickname defined*")) in lines
      && JoinedLine(user.bot) in lines
      && lines[|lines| - 1] == RolesLine(RolesText(member.roles, guildId))
  {
  }

  /**
   * Without a member, the full user-information field ends with the
   * creation line and has no nickname, joined or roles line.
   */
  lemma FullInfoLinesWithoutMember(user: User, guildId: string)
    ensures var lines := FullInfoLines(user, None, guildId);
      && MentionLine(user.id) in lines
      && lines[|lines| - 1] == CreatedLine
      && forall i :: 0 <= i < |lines| ==> !lines[i].NicknameLine? && !lines[i].JoinedLine? && !lines[i].RolesLine?
  {
  }

  /** The name of the member's current voice channel, when it has one the guild's cache knows. */
  function VoiceChannelName(member: Option<Member>, guild: Guild): (name: Option<string>)
    ensures name.Some? <==>
      member.Some? && Truthy(member.value.voice.channelId) && member.value.voice.channelId.value in guild.channels
  {
    if member.Some? && Truthy(member.value.voice.channelId) && member.value.voice.channelId.value in guild.channels
    then Some(guild.channels[member.value.voice.channelId.value].GetOr("None"))
    else None
  }

  /** The full embed has a voice field for a member in a known voice channel, or muted, or deafened. */
  predicate HasVoiceField(member: Option<Member>, guild: Guild) {
    member.Some? && (VoiceChannelName(member, guild).Some? || member.value.voice.mute || member.value.voice.deaf)
  }

  /**
   * The non-empty lines of the voice field, in the order they are written:
   * the channel the member is in, when it is known, then one line per flag.
   */
  function VoiceLines(channel: Option<string>, voice: VoiceState): (lines: seq<VoiceLine>)
    ensures |lines| <= 5
    ensures channel.Some? ==> |lines| >= 1 && lines[0] == CurrentChannel(channel.value)
    ensures channel.None? ==> forall i :: 0 <= i < |lines| ==> !lines[i].CurrentChannel?
    ensures ServerMuted in lines <==> voice.serverMute
    ensures ServerDeafened in lines <==> voice.serverDeaf
    ensures SelfMuted in lines <==> voice.selfMute
    ensures SelfDeafened in lines <==> voice.selfDeaf
  {
    (if channel.Some? then [CurrentChannel(channel.value)] else [])
      + FlagLine(voice.serverMute, ServerMuted)
      + FlagLine(voice.serverDeaf, ServerDeafened)
      + FlagLine(voice.selfMute, SelfMuted)
      + FlagLine(voice.selfDeaf, SelfDeafened)
  }

  /** The line for one flag of the voice state: there when the flag is set, empty otherwise. */
  function FlagLine(flag: bool, line: VoiceLine): (lines: seq<VoiceLine>)
    ensures |lines| <= 1
    ensures forall l :: l in lines <==> flag && l == line
  {
    if flag then [line] else []
  }

  /** The voice field of the full embed, when it has one. */
  function VoicePart(member: Option<Member>, guild: Guild): seq<Field>
  {
    if HasVoiceField(member, guild) then [VoiceInformation(VoiceLines(VoiceChannelName(member, guild), member.value.voice))] else []
  }

  /** The "Member information" warning of the full embed, for a user who is not a member. */
  function WarningPart(user: User, member: Option<Member>): seq<Field>
  {
    if member.None? then [MemberInformation(user.bot)] else []
  }

  /** The Cases field of the full embed, when some case is visible. */
  function CasesPart(cases: seq<Case>, guildId: string): seq<Field>
  {
    var summary := CaseSummaryOf(cases, guildId);
    if summary.Some? then [CasesField(summary.value)] else []
  }

  /**
   * The fields of the embed for a resolved user, in order. Compact: the
   * user-information field, plus the "not on the server" note when there is
   * no member. Full: the user-information field, the voice field, the
   * "Member information" warning when there is no member, and the Cases
   * field when some case is visible.
   */
  function EmbedFields(user: User, member: Option<Member>, guild: Guild, cases: seq<Case>, compact: bool)
    : (fields: seq<Field>)
    ensures |fields| >= 1
  {
    if compact then
      [UserInformation(user.bot, CompactInfoLines(user, member.Some?))]
        + (if member.None? then [NotOnServerNote(user.bot)] else [])
    else
      [UserInformation(user.bot, FullInfoLines(user, member, guild.id))]
        + VoicePart(member, guild) + WarningPart(user, member) + CasesPart(cases, guild.id)
  }

  /**
   * Compact mode: with a member the embed has the one user-information
   * field (profile, creation, joining); without one it has that field
   * (profile, creation) and then the "not on the server" note.
   */
  lemma CompactLayout(user: User, member: Option<Member>, guild: Guild, cases: seq<Case>)
    ensures member.Some? ==>
      EmbedFields(user, member, guild, cases, true) == [UserInformation(user.bot, CompactInfoLines(user, true))]
    ensures member.None? ==>
      EmbedFields(user, member, guild, cases, true)
        == [UserInformation(user.bot, CompactInfoLines(user, false)), NotOnServerNote(user.bot)]
  {
  }

  /**
   * Compact mode: the first field is named "Bot information" for a bot and
   * "User information" otherwise; for a non-member the second is the note.
   */
  lemma CompactLayoutName(user: User, member: Option<Member>, guild: Guild, cases: seq<Case>)
    ensures EmbedFields(user, member, guild, cases, true)[0].Name()
      == if user.bot then "Bot information" else "User information"
    ensures member.None? ==> EmbedFields(user, member, guild, cases, true)[1].Name() == "!! NOTE !!"
  {
    CompactLayout(user, member, guild, cases);
    UserInformationName(user.bot, CompactInfoLines(user, member.Some?));
  }

  /**
   * Full mode: the user-information field comes first and is the only one
   * of its kind, and there are at most three fields, since the voice field
   * needs a member and the warning its absence.
   */
  lemma FullLayout(user: User, member: Option<Member>, guild: Guild, cases: seq<Case>)
    ensures var fields := EmbedFields(user, member, guild, cases, false);
      && 1 <= |fields| <= 3
      && fields[0] == UserInformation(user.bot, FullInfoLines(user, member, guild.id))
      && (forall i :: 0 < i < |fields| ==> !fields[i].UserInformation? && !fields[i].NotOnServerNote?)
  {
  }

  /** Full mode: the first field is named "Bot information" for a bot and "User information" otherwise. */
  lemma FullLayoutName(user: User, member: Option<Member>, guild: Guild, cases: seq<Case>)
    ensures EmbedFields(user, member, guild, cases, false)[0].Name()
      == if user.bot then "Bot information" else "User information"
  {
    var first := UserInformation(user.bot, FullInfoLines(user, member, guild.id));
    var rest := VoicePart(member, guild) + WarningPart(user, member) + CasesPart(cases, guild.id);
    assert EmbedFields(user, member, guild, cases, false)[0] == ([first] + rest)[0] == first;
    UserInformationName(user.bot, first.lines);
  }

  /** The user-information field is named after whether the user is a bot. */
  lemma UserInformationName(isBot: bool, lines: seq<InfoLine>)
    ensures UserInformation(isBot, lines).Name() == if isBot then "Bot information" else "User information"
  {
  }

  /** Full mode: the "Member information" warning is there exactly when the user is not a member. */
  lemma FullLayoutWarning(user: User, member: Option<Member>, guild: Guild, cases: seq<Case>)
    ensures var fields := EmbedFields(user, member, guild, cases, false);
      && (member.None? ==> MemberInformation(user.bot) in fields)
      && (member.Some? ==> forall i :: 0 <= i < |fields| ==> !fields[i].MemberInformation?)
  {
  }

  /**
   * Full mode: the voice field is there exactly when `HasVoiceField` holds,
   * and then second, right after the user-information field.
   */
  lemma FullLayoutVoice(user: User, member: Option<Member>, guild: Guild, cases: seq<Case>)
    ensures var fields := EmbedFields(user, member, guild, cases, false);
      && (HasVoiceField(member, guild) ==>
            |fields| >= 2 && fields[1] == VoiceInformation(VoiceLines(VoiceChannelName(member, guild), member.value.voice)))
      && (!HasVoiceField(member, guild) ==> forall i :: 0 <= i < |fields| ==> !fields[i].VoiceInformation?)
  {
  }

  /** Full mode: the Cases field is there exactly when some case is visible, and then last. */
  lemma FullLayoutCases(user: User, member: Option<Member>, guild: Guild, cases: seq<Case>)
    ensures var fields := EmbedFields(user, member, guild, cases, false);
      && (CaseSummaryOf(cases, guild.id).Some? ==>
            fields[|fields| - 1] == CasesField(CaseSummaryOf(cases, guild.id).value))
      && (CaseSummaryOf(cases, guild.id).None? ==> forall i :: 0 <= i < |fields| ==> !fields[i].CasesField?)
  {
    var fields := EmbedFields(user, member, guild, cases, false);
    if CaseSummaryOf(cases, guild.id).None? {
      forall i | 0 <= i < |fields| ensures !fields[i].CasesField? {
        assert fields[i] in fields;
      }
    }
  }

  /** The Cases field appears exactly when the user has a case that is not hidden. */
  lemma CasesFieldPresence(user: User, member: Option<Member>, guild: Guild, cases: seq<Case>, compact: bool)
    ensures (exists i :: 0 <= i < |EmbedFields(user, member, guild, cases, compact)|
              && EmbedFields(user, member, guild, cases, compact)[i].CasesField?)
      <==> !compact && exists j :: 0 <= j < |cases| && !cases[j].isHidden
  {
    var fields := EmbedFields(user, member, guild, cases, compact);
    if !compact {
      FullLayoutCases(user, member, guild, cases);
      if CaseSummaryOf(cases, guild.id).Some? {
        assert fields[|fields| - 1].CasesField?;
      }
    } else {
      CompactLayout(user, member, guild, cases);
    }
  }

  /** The lines of the full user-information field, pushed one after another. */
  method PushFullInfoLines(user: User, member: Option<Member>, guildId: string) returns (lines: seq<InfoLine>)
    ensures lines == FullInfoLines(user, member, guildId)
  {
    lines := [IdLine(user.id), UsernameLine(user.username)];
    if user.discriminator != "0" {
      lines := lines + [DiscriminatorLine(user.discriminator)];
    }
    if Truthy(user.globalName) {
      lines := lines + [DisplayNameLine(user.globalName.value)];
    }
    assert lines == InfoLinesFront(user);
    if member.Some? {
      lines := lines + [NicknameLine(member.value.nickname.GetOr("*no nickname defined*"))];
    }
    lines := lines + [MentionLine(user.id)];
    lines := lines + [CreatedLine];
    if member.Some? {
      lines := lines + [JoinedLine(user.bot)];
      lines := lines + [RolesLine(RolesText(member.value.roles, guildId))];
    }
  }

  /** The compact embed's fields, pushed one after another. */
  method PushCompactFields(user: User, member: Option<Member>, guild: Guild, cases: seq<Case>)
    returns (fields: seq<Field>)
    ensures fields == EmbedFields(user, member, guild, cases, true)
  {
    fields := [UserInformation(user.bot, [ProfileLine(user.id), CreatedLine])];
    if member.Some? {
      fields := fields[0 := fields[0].(lines := fields[0].lines + [JoinedLine(user.bot)])];
      assert CompactInfoLines(user, true) == [ProfileLine(user.id), CreatedLine, JoinedLine(user.bot)];
    } else {
      fields := fields + [NotOnServerNote(user.bot)];
      assert CompactInfoLines(user, false) == [ProfileLine(user.id), CreatedLine];
    }
    CompactLayout(user, member, guild, cases);
  }

  /** The full embed's fields, pushed one after another. */
  method PushFullFields(user: User, member: Option<Member>, guild: Guild, cases: seq<Case>)
    returns (fields: seq<Field>)
    ensures fields == EmbedFields(user, member, guild, cases, false)
  {
    var lines := PushFullInfoLines(user, member, guild.id);
    fields := [UserInformation(user.bot, lines)];
    if member.Some? && (VoiceChannelName(member, guild).Some? || member.value.voice.mute || member.value.voice.deaf) {
      fields := fields + [VoiceInformation(VoiceLines(VoiceChannelName(member, guild), member.value.voice))];
    }
    assert fields == [UserInformation(user.bot, lines)] + VoicePart(member, guild);
    if member.None? {
      fields := fields + [MemberInformation(user.bot)];
    }
    assert fields == [UserInformation(user.bot, lines)] + VoicePart(member, guild) + WarningPart(user, member);
    var summary := CaseSummaryOf(cases, guild.id);
    if summary.Some? {
      fields := fields + [CasesField(summary.value)];
    }
  }

  /**
   * `getUserInfoEmbed`: no embed unless the user resolves to a known user;
   * otherwise the author line and the fields, pushed one after another.
   */
  method GetUserInfoEmbed(lookup: UserLookup, member: Option<Member>, guild: Guild, cases: seq<Case>, compact: bool)
    returns (embed: Option<Embed>)
    ensures embed.None? <==> !lookup.Resolved?
    ensures embed.Some? ==> embed.value.author == Author(lookup.user.bot, member.Some?)
    ensures embed.Some? ==> embed.value.fields == EmbedFields(lookup.user, member, guild, cases, compact)
  {
    if !lookup.Resolved? {
      return None;
    }
    var user := lookup.user;
    var author := Author(user.bot, member.Some?);
    var fields: seq<Field>;
    if compact {
      fields := PushCompactFields(user, member, guild, cases);
    } else {
      fields := PushFullFields(user, member, guild, cases);
    }
    return Some(Embed(author, fields));
  }
}
