/** The bot's command and button handlers over its three per-guild stores:
    the config store written by setup, the embed store holding each guild's
    panel message, and the panel status map written by togglepanel. */
module Intake {

  import opened Types
  import opened Panel
  import opened Session

  /** The options of the setup command that setup checks. A channel or role
      option is present or absent; a string option must be present and
      non-empty. */
  datatype SetupOptions = SetupOptions(
    logChannel: Option<ChannelId>,
    embedChannel: Option<ChannelId>,
    role: Option<RoleId>,
    embedColor: Option<string>,
    footerText: Option<string>)

  /** What setup keeps from valid options: the config entry and the panel's channel. */
  datatype ValidSetup = ValidSetup(config: GuildConfig, embedChannel: ChannelId)

  datatype SetupReply = NotOwner | InvalidInput | SetUp | PanelSendFailed

  datatype ToggleReply = InvalidStatus | Toggled(status: Status)

  datatype StartReply = ApplicationsClosed | DmsClosed | Started(session: ApplicationSession)

  /** What one guild's resync did. */
  datatype SyncOutcome =
    | ChannelUnresolved
    | NoMessageId
    | MessageGone
    | Edited(channel: ChannelId, message: MessageId, embed: EmbedSnapshot)
    | EditFailed

  function Truthy(s: Option<string>): bool
  {
    s.Some? && s.value != ""
  }

  /** Setup accepts its options exactly when all five required ones are there. */
  function ValidateSetup(o: SetupOptions): (r: Option<ValidSetup>)
    ensures r.Some? <==> o.logChannel.Some? && o.embedChannel.Some? && o.role.Some?
                         && o.embedColor.Some? && o.embedColor.value != ""
                         && o.footerText.Some? && o.footerText.value != ""
    ensures r.Some? ==> r.value.config == GuildConfig(o.logChannel.value, o.role.value)
                        && r.value.embedChannel == o.embedChannel.value
  {
    if o.logChannel.None? || o.embedChannel.None? || o.role.None? || !Truthy(o.embedColor) || !Truthy(o.footerText)
    then None
    else Some(ValidSetup(GuildConfig(o.logChannel.value, o.role.value), o.embedChannel.value))
  }

  /** One guild's resync: the stored embed is re-applied to the panel message
      when the channel resolves, the record names a message and the fetch
      finds it; a failing edit is caught and reported for that guild alone. */
  function SyncGuild(r: PanelRecord, channels: set<ChannelId>, messages: set<(ChannelId, MessageId)>, editFails: bool): SyncOutcome
  {
    if r.embedChannel !in channels then ChannelUnresolved
    else if r.embedId == "" then NoMessageId
    else if (r.embedChannel, r.embedId) !in messages then MessageGone
    else if editFails then EditFailed
    else Edited(r.embedChannel, r.embedId, r.embed)
  }

  /** A guild's panel message is edited exactly when its channel resolved, its
      message id is set, the fetch found the message and the edit did not
      fail, and the edit writes the stored embed to that very message; a guild
      whose message was deleted is skipped without an edit. */
  lemma SyncEditsExactly(r: PanelRecord, channels: set<ChannelId>, messages: set<(ChannelId, MessageId)>, editFails: bool)
    ensures var o := SyncGuild(r, channels, messages, editFails);
      && (o.Edited? <==>
            (r.embedChannel in channels && r.embedId != "" && (r.embedChannel, r.embedId) in messages && !editFails))
      && (o.Edited? ==> o == Edited(r.embedChannel, r.embedId, r.embed))
      && (r.embedChannel in channels && r.embedId != "" && (r.embedChannel, r.embedId) !in messages ==> o == MessageGone)
  {
  }

  /** The bot's per-guild state. The status map lives in memory only: a
      restart starts with every guild open. */
  class Bot {
    const owner: UserId
    const questions: seq<string>
    var config: map<GuildId, GuildConfig>
    var embedData: map<GuildId, PanelRecord>
    var panelStatus: map<GuildId, Status>

    /** The stores as loaded at start-up, with no panel status set. */
    constructor (owner: UserId, questions: seq<string>, config: map<GuildId, GuildConfig>, embedData: map<GuildId, PanelRecord>)
      ensures this.owner == owner && this.questions == questions
      ensures this.config == config && this.embedData == embedData && panelStatus == map[]
    {
      this.owner := owner;
      this.questions := questions;
      this.config := config;
      this.embedData := embedData;
      panelStatus := map[];
    }

    /** The setup command. Anyone but the owner is refused; missing options
        are refused; otherwise the guild's config entry is overwritten with
        exactly the log channel and role, and then, if the panel message could
        be posted (its id given as `posted`), the guild's embed record is
        overwritten too. A failed post leaves the new config in place. */
    method Setup(caller: UserId, guild: GuildId, opts: SetupOptions, panel: EmbedSnapshot, posted: Option<MessageId>)
      returns (reply: SetupReply)
      modifies this`config, this`embedData
      ensures caller != owner ==> reply == NotOwner && config == old(config) && embedData == old(embedData)
      ensures caller == owner && ValidateSetup(opts).None? ==>
        reply == InvalidInput && config == old(config) && embedData == old(embedData)
      ensures caller == owner && ValidateSetup(opts).Some? ==>
        var v := ValidateSetup(opts).value;
        && config == old(config)[guild := v.config]
        && (posted.Some? ==> reply == SetUp && embedData == old(embedData)[guild := PanelRecord(v.embedChannel, panel, posted.value)])
        && (posted.None? ==> reply == PanelSendFailed && embedData == old(embedData))
    {
      if caller != owner {
        return NotOwner;
      }
      var valid := ValidateSetup(opts);
      if valid.None? {
        return InvalidInput;
      }
      config := config[guild := valid.value.config];
      match posted
      case Some(id) =>
        embedData := embedData[guild := PanelRecord(valid.value.embedChannel, panel, id)];
        reply := SetUp;
      case None =>
        reply := PanelSendFailed;
    }

    /** The togglepanel command: an invalid status is refused and changes
        nothing; a valid one sets this guild's status and no other. */
    method TogglePanel(guild: GuildId, status: Option<string>) returns (reply: ToggleReply)
      modifies this`panelStatus
      ensures ParseStatus(status).None? ==> reply == InvalidStatus && panelStatus == old(panelStatus)
      ensures ParseStatus(status).Some? ==>
        reply == Toggled(ParseStatus(status).value) && panelStatus == old(panelStatus)[guild := ParseStatus(status).value]
    {
      var parsed := ParseStatus(status);
      if parsed.None? {
        return InvalidStatus;
      }
      panelStatus := panelStatus[guild := parsed.value];
      reply := Toggled(parsed.value);
    }

    /** The start button. A guild without config, or with a closed panel, gets
        the refusal and no session; when the welcome message cannot be
        delivered the applicant is told to open their DMs and no session
        exists; otherwise a session starts with the guild's current config.
        The stores are only read. */
    method StartApplication(guild: GuildId, welcomeDelivered: bool, env: Env) returns (reply: StartReply)
      ensures reply == ApplicationsClosed <==> Admit(config, panelStatus, guild) == None
      ensures reply == DmsClosed <==> Admit(config, panelStatus, guild) != None && !welcomeDelivered
      ensures reply.Started? ==>
        && fresh(reply.session) && reply.session.Valid() && reply.session.received == []
        && reply.session.questions == questions && reply.session.guildConfig == config[guild]
        && reply.session.env == env
    {
      var admitted := Admit(config, panelStatus, guild);
      if admitted.None? {
        return ApplicationsClosed;
      }
      if !welcomeDelivered {
        return DmsClosed;
      }
      var session := new ApplicationSession(questions, admitted.value, env);
      reply := Started(session);
    }

    /** One resync pass, at start-up or on the timer: every guild of the embed
        store is visited, and each gets the outcome its own record, the
        channels that resolve, the messages a fetch finds and its own edit
        failure decide. The stores are only read. */
    method Resync(channels: set<ChannelId>, messages: set<(ChannelId, MessageId)>, editFailures: set<GuildId>)
      returns (outcomes: map<GuildId, SyncOutcome>)
      ensures outcomes.Keys == embedData.Keys
      ensures forall g :: g in outcomes ==> outcomes[g] == SyncGuild(embedData[g], channels, messages, g in editFailures)
    {
      outcomes := map[];
      var pending := embedData.Keys;
      while pending != {}
        invariant pending <= embedData.Keys
        invariant outcomes.Keys == embedData.Keys - pending
        invariant forall g :: g in outcomes ==> outcomes[g] == SyncGuild(embedData[g], channels, messages, g in editFailures)
        decreases pending
      {
        var g :| g in pending;
        var outcome := SyncGuild(embedData[g], channels, messages, g in editFailures);
        outcomes := outcomes[g := outcome];
        pending := pending - {g};
      }
    }
  }
}
