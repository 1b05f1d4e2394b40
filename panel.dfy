/** The per-guild panel gate: the open/close status written by the
    togglepanel command, the admission rule of the "start application"
    button, and the rendering of that button from a status. */
module Panel {

  import opened Types

  datatype Status = Open | Close

  /** The togglepanel status option: only "open" and "close" are accepted;
      anything else, including a missing option, is rejected. */
  function ParseStatus(s: Option<string>): (r: Option<Status>)
    ensures r == Some(Open) <==> s == Some("open")
    ensures r == Some(Close) <==> s == Some("close")
    ensures r == None <==> s != Some("open") && s != Some("close")
  {
    match s
    case Some(text) =>
      if text == "open" then Some(Open)
      else if text == "close" then Some(Close)
      else None
    case None => None
  }

  /** The status a guild is treated as having: a guild nobody toggled is open. */
  function EffectiveStatus(statuses: map<GuildId, Status>, g: GuildId): (s: Status)
    ensures s == Close <==> g in statuses && statuses[g] == Close
  {
    if g in statuses then statuses[g] else Open
  }

  /** The admission rule of the start button: the guild's config when the guild
      has one and its panel is not closed, nothing otherwise. */
  function Admit(config: map<GuildId, GuildConfig>, statuses: map<GuildId, Status>, g: GuildId): (r: Option<GuildConfig>)
    ensures r == None <==> g !in config || (g in statuses && statuses[g] == Close)
    ensures r != None ==> g in config && r == Some(config[g])
  {
    if g !in config || EffectiveStatus(statuses, g) == Close then None else Some(config[g])
  }

  /** Setting one guild's status leaves every other guild's admission as it was. */
  lemma AdmitIsPerGuild(config: map<GuildId, GuildConfig>, statuses: map<GuildId, Status>, g: GuildId, h: GuildId, s: Status)
    requires g != h
    ensures Admit(config, statuses[h := s], g) == Admit(config, statuses, g)
  {
  }

  /** For a configured guild, closing refuses every start and opening admits one. */
  lemma ToggleDecidesAdmission(config: map<GuildId, GuildConfig>, statuses: map<GuildId, Status>, g: GuildId)
    requires g in config
    ensures Admit(config, statuses[g := Close], g) == None
    ensures Admit(config, statuses[g := Open], g) == Some(config[g])
  {
  }

  datatype ButtonStyle = Primary | Danger

  datatype Button = Button(customId: string, caption: string, style: ButtonStyle, disabled: bool)

  /** The panel button for a status. */
  function RenderButton(s: Status): (b: Button)
    ensures b.customId == "start_application"
    ensures s == Open ==> b.caption == "Apply Now" && b.style == Primary && !b.disabled
    ensures s == Close ==> b.caption == "Applications are closed" && b.style == Danger && b.disabled
  {
    Button("start_application",
           if s == Open then "Apply Now" else "Applications are closed",
           if s == Open then Primary else Danger,
           s == Close)
  }

  /** The button that setup posts with a fresh panel. */
  const SetupButton := Button("start_application", "Apply Now", Primary, false)

  /** A freshly posted panel shows the open rendering, the status a guild has
      before anyone toggles it. */
  lemma SetupButtonIsOpenRendering(statuses: map<GuildId, Status>, g: GuildId)
    requires g !in statuses
    ensures SetupButton == RenderButton(EffectiveStatus(statuses, g))
  {
  }

  /** For a configured guild, the rendering `RenderButton` would produce is
      disabled exactly when the gate refuses a start. */
  lemma ButtonAgreesWithGate(config: map<GuildId, GuildConfig>, statuses: map<GuildId, Status>, g: GuildId)
    requires g in config
    ensures RenderButton(EffectiveStatus(statuses, g)).disabled <==> Admit(config, statuses, g) == None
  {
  }

  /** The panel message keeps the button setup posted: the re-render of
      togglepanel never runs and resync edits only the embed. So after a
      close the panel still shows an enabled "Apply Now" button while the
      gate refuses every start. */
  lemma StaleButtonAfterClose(config: map<GuildId, GuildConfig>, statuses: map<GuildId, Status>, g: GuildId)
    requires g in config
    ensures !SetupButton.disabled && SetupButton.caption == "Apply Now"
    ensures Admit(config, statuses[g := Close], g) == None
    ensures SetupButton != RenderButton(EffectiveStatus(statuses[g := Close], g))
  {
  }
}
