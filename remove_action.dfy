/** `SoundpadRemoveAction`: a key that removes the sound at a configured
    index. The index is kept as a string setting and parsed into a field. */
module RemoveAction {
  import opened Common
  import opened Manager
  import opened ActionCommon

  const DefaultRemoveIndex: int := 0

  /** The action's fields and whether the last initialisation saved the
      settings. */
  datatype RemoveState = RemoveState(removeSoundIndex: Option<string>, removeIndex: int, saved: bool)

  /** `InitializeSettings`: the parsed index, or 0 with the setting rewritten
      to "0" and saved when the setting is not an Int32 (null and empty
      included). */
  function Initialized(setting: Option<string>): (r: RemoveState)
    ensures r.removeIndex == TryParseOut(setting)
    ensures TryParseInt32(setting).Some? ==> r.removeSoundIndex == setting && !r.saved
    ensures TryParseInt32(setting).None? ==> r.removeSoundIndex == Some("0") && r.saved
  {
    match TryParseInt32(setting)
    case Some(v) => RemoveState(setting, v, false)
    case None => RemoveState(Some(IntToString(DefaultRemoveIndex)), DefaultRemoveIndex, true)
  }

  /** `KeyPressed`: the index it removes, or None when it refuses. */
  function PressRemoves(s: RemoveState): Option<int>
  {
    if IsNullOrEmpty(s.removeSoundIndex) || s.removeIndex == 0 then None else Some(s.removeIndex)
  }

  /** After initialisation a press removes exactly when the setting is a
      non-zero Int32, and then removes that index. A setting that failed to
      parse has been rewritten to "0", and a second initialisation keeps it. */
  lemma PressAfterInitialize(setting: Option<string>)
    ensures PressRemoves(Initialized(setting)) ==
      match TryParseInt32(setting)
      case Some(v) => if v != 0 then Some(v) else None
      case None => None
    ensures var once := Initialized(setting);
      Initialized(once.removeSoundIndex).removeSoundIndex == once.removeSoundIndex
      && Initialized(once.removeSoundIndex).removeIndex == once.removeIndex
  {
    IntToStringRoundTrip(DefaultRemoveIndex);
  }

  /** Before the first initialisation the index field holds 0, so a press is
      refused whatever the setting says. */
  lemma FieldDefaultRefusesPress(setting: Option<string>)
    ensures PressRemoves(RemoveState(setting, DefaultRemoveIndex, false)) == None
  {
  }

  class SoundpadRemoveAction {
    var removeSoundIndex: Option<string>
    var removeIndex: int

    function State(saved: bool): RemoveState
      reads this
    {
      RemoveState(removeSoundIndex, removeIndex, saved)
    }

    /** The stored setting (an empty one when there are no settings), the
        index field at 0, then `InitializeSettings`. */
    constructor (payload: Option<Option<string>>)
      ensures var setting := if payload.Some? then payload.value else Some("");
        State(Initialized(setting).saved) == Initialized(setting)
    {
      removeSoundIndex := if payload.Some? then payload.value else Some("");
      removeIndex := DefaultRemoveIndex;
      new;
      var _ := InitializeSettings();
    }

    method InitializeSettings() returns (saved: bool)
      modifies this
      ensures State(saved) == Initialized(old(removeSoundIndex))
    {
      var parsed := TryParseInt32(removeSoundIndex);
      removeIndex := TryParseOut(removeSoundIndex);
      saved := false;
      if parsed.None? {
        removeSoundIndex := Some(IntToString(DefaultRemoveIndex));
        saved := true;
      }
    }

    method ReceivedSettings(incoming: Option<string>) returns (saved: bool)
      modifies this
      ensures State(saved) == Initialized(incoming)
    {
      removeSoundIndex := incoming;
      saved := InitializeSettings();
    }

    /** Refuses with an alert when the setting is empty or the index is 0;
        otherwise asks the manager to remove that index, with no connection
        check, and shows OK. */
    method KeyPressed() returns (effects: seq<Effect>, feedback: Feedback)
      ensures PressRemoves(State(false)).None? ==> effects == [] && feedback == ShowAlert
      ensures PressRemoves(State(false)).Some? ==>
        effects == [SelectIndex(removeIndex), RemoveSelectedEntries] && feedback == ShowOk
    {
      if IsNullOrEmpty(removeSoundIndex) || removeIndex == 0 {
        return [], ShowAlert;
      }
      effects := [SelectIndex(removeIndex), RemoveSelectedEntries];
      feedback := ShowOk;
    }
  }
}
