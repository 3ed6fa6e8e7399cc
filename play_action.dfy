/** `SoundpadPlayAction`: a key that plays one sound, chosen by its index or
    by its title. The manager's answers (whether it is connected, what its
    `PlaySound` returned) are parameters. */
module PlayAction {
  import opened Common
  import opened Manager
  import opened ActionCommon

  datatype PlaySettings = PlaySettings(
    soundTitle: Option<string>,
    showSoundTitle: bool,
    soundIndex: Option<string>,
    pushToPlay: bool)

  /** `PluginSettings.CreateDefaultSettings`. */
  const DefaultSettings: PlaySettings := PlaySettings(Some(""), false, Some(""), false)

  /** The `PlaySound` call a key press makes: none because Soundpad is not
      connected or nothing is configured (`NotReady`), none because the index
      setting is not an Int32 (`BadIndex`), or one of the two overloads. */
  datatype PlayRequest = NotReady | BadIndex | ByIndex(index: int) | ByTitle(title: string)

  /** `KeyPressed`'s decision. A non-empty index setting takes precedence over
      the title; the title is used only while the index setting is empty. */
  function RequestFor(connected: bool, s: PlaySettings): (r: PlayRequest)
    ensures r.NotReady? <==> !connected || (IsNullOrEmpty(s.soundTitle) && IsNullOrEmpty(s.soundIndex))
    ensures r.BadIndex? <==> connected && !IsNullOrEmpty(s.soundIndex) && TryParseInt32(s.soundIndex).None?
    ensures r.ByIndex? <==> connected && TryParseInt32(s.soundIndex).Some?
    ensures r.ByIndex? ==> r.index == TryParseInt32(s.soundIndex).value
    ensures r.ByTitle? <==> connected && IsNullOrEmpty(s.soundIndex) && !IsNullOrEmpty(s.soundTitle)
    ensures r.ByTitle? ==> s.soundTitle == Some(r.title)
  {
    if connected && (!IsNullOrEmpty(s.soundTitle) || !IsNullOrEmpty(s.soundIndex)) then
      if !IsNullOrEmpty(s.soundIndex) then
        match TryParseInt32(s.soundIndex)
        case Some(index) => ByIndex(index)
        case None => BadIndex
      else
        ByTitle(s.soundTitle.value)
    else
      NotReady
  }

  /** The key shows OK exactly when a `PlaySound` call was made and returned
      true; every other press shows an alert. */
  function PressFeedback(r: PlayRequest, playResult: bool): (f: Feedback)
    ensures f == ShowOk <==> (r.ByIndex? || r.ByTitle?) && playResult
  {
    if (r.ByIndex? || r.ByTitle?) && playResult then ShowOk else ShowAlert
  }

  /** A whole key press against the manager: the request, then the
      corresponding manager step, then the feedback. */
  function KeyPressed(m: ManagerState, s: PlaySettings, w: World): (r: (Step<bool>, Feedback))
    ensures var req := RequestFor(m.connected, s);
      && (req.NotReady? || req.BadIndex? ==> r.0 == Step(m, [], false) && r.1 == ShowAlert)
      && (req.ByIndex? ==> r.0 == PlayIndexStep(m, req.index, w) && r.0.effects == [PlayCommand(req.index)])
      && (req.ByTitle? ==> r.0 == PlayTitleStep(m, req.title, w))
      && (r.1 == ShowOk <==> r.0.result)
  {
    var req := RequestFor(m.connected, s);
    var step := match req
      case ByIndex(i) => PlayIndexStep(m, i, w)
      case ByTitle(t) => PlayTitleStep(m, t, w)
      case _ => Step(m, [], false);
    (step, PressFeedback(req, step.result))
  }

  /** `OnTick`: while disconnected the not-running image with a null title;
      otherwise the action's image, and the title only when it is to be
      shown, is non-empty, and no index is configured. */
  function Tick(connected: bool, s: PlaySettings): (t: TickOutput)
    ensures !connected ==> t == NotRunningTick
    ensures connected ==> t.image == DefaultImage
    ensures connected ==>
      (t.title.SetTitle? <==> s.showSoundTitle && !IsNullOrEmpty(s.soundTitle) && IsNullOrEmpty(s.soundIndex))
    ensures connected && t.title.SetTitle? ==> t.title.text == s.soundTitle
  {
    if !connected then NotRunningTick
    else if s.showSoundTitle && !IsNullOrEmpty(s.soundTitle) && IsNullOrEmpty(s.soundIndex) then
      TickOutput(DefaultImage, SetTitle(s.soundTitle))
    else
      TickOutput(DefaultImage, KeepTitle)
  }

  /** The property inspector's message, compared in lower case with
      "refreshsounds", refreshes the catalog. */
  function RefreshRequested(message: string): bool
  {
    RequestsRefresh(message, "refreshsounds")
  }

  lemma RefreshRequestedByInspector()
    ensures RefreshRequested("refreshSounds")
  {
    LowerCaseMatch("refreshSounds", "refreshsounds");
  }

  /** Once `ReceivedSettings` has run, a press never meets an unparsable
      index: it plays by index, plays by title, or is not ready. */
  lemma SanitizedSettingsNeverBadIndex(connected: bool, s: PlaySettings)
    ensures !RequestFor(connected, s.(soundIndex := SanitizeIndex(s.soundIndex))).BadIndex?
  {
    SanitizeIndexSettles(s.soundIndex);
  }

  class SoundpadPlayAction {
    var settings: PlaySettings

    /** The stored settings, or the defaults when there are none. */
    constructor (payload: Option<PlaySettings>)
      ensures settings == if payload.Some? then payload.value else DefaultSettings
    {
      settings := if payload.Some? then payload.value else DefaultSettings;
    }

    /** `ReceivedSettings`: takes the new settings and blanks an index that is
        not an Int32. */
    method ReceivedSettings(incoming: PlaySettings)
      modifies this
      ensures settings == incoming.(soundIndex := SanitizeIndex(incoming.soundIndex))
    {
      settings := incoming;
      if !IsNullOrEmpty(settings.soundIndex) && TryParseInt32(settings.soundIndex).None? {
        settings := settings.(soundIndex := Some(""));
      }
    }

    method KeyReleased() returns (effects: seq<Effect>)
      ensures effects == ReleaseEffects(settings.pushToPlay)
    {
      effects := [];
      if settings.pushToPlay {
        effects := [StopSound];
      }
    }
  }
}
