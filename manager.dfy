/** `SoundpadManager`: the connection supervisor, the catalog cache and the
    playback facade the actions call.

    Every public method is taken as one atomic step. The clock, the
    transport's connection status and the transport's answers during the call
    are a `World` parameter; what the manager asks of the transport, and the
    `SoundsUpdated` events it raises, come back as a list of `Effect`s.

    The step functions below say what each method does to a `ManagerState`
    value; the class `SoundpadManager` at the end holds the same state in
    fields and its methods are proved to take exactly those steps. */
module Manager {
  import opened Common
  import opened Catalog

  const AllSoundsCategory: string := "All sounds"
  const CacheSoundsCooldownMs: int := 2000
  const ConnectCooldownMs: int := 2000

  /** The transport's own view of the session. */
  datatype ConnectionStatus = Disconnected | Connecting | Connected

  /** A recorded instant in milliseconds; `Never` is `DateTime.MinValue`,
      which lies before any clock reading. */
  datatype Time = Never | At(ms: int)

  /** Less than `cooldownMs` has passed between `last` and `now`. */
  predicate InCooldown(now: int, last: Time, cooldownMs: int)
  {
    last.At? && now - last.ms < cooldownMs
  }

  /** A transport reply: unsuccessful with its error message, or successful
      with its payload. */
  datatype Fetch<T> = Failed(message: string) | Fetched(value: T)

  /** What the clock and the transport answer while one call runs. `commandOk`
      is the success flag of the command the call sends (`PlaySound`,
      `LoadSoundlist`). */
  datatype World = World(
    now: int,
    status: ConnectionStatus,
    soundlist: Fetch<seq<Sound>>,
    categoryList: Fetch<seq<Category>>,
    commandOk: bool)

  /** A request sent to the transport, or the `SoundsUpdated` event. */
  datatype Effect =
    | ConnectAsync
    | GetSoundlist
    | GetCategories
    | PlayCommand(index: int)
    | LoadSoundlist(file: string)
    | StopSound
    | StartRecording
    | StopRecording
    | TogglePauseCommand
    | SelectIndex(selected: int)
    | RemoveSelectedEntries
    | SoundsUpdated

  /** The manager's fields. A dictionary that is still null is `None`. */
  datatype ManagerState = ManagerState(
    connected: bool,
    lastConnectAttempt: Time,
    lastCacheSounds: Time,
    sounds: Option<map<string, int>>,
    categories: Option<map<string, Category>>)

  /** The fields before the constructor's first `Connect`. */
  const Initial: ManagerState := ManagerState(false, Never, Never, None, None)

  /** The state after a call, what it sent, and what it returned. */
  datatype Step<T> = Step(state: ManagerState, effects: seq<Effect>, result: T)

  /** `RandomGenerator.Next(n)`: a draw in [0, n) for every n > 0. */
  ghost predicate RandomBounded(rng: nat -> nat)
  {
    forall n: nat :: 0 < n ==> rng(n) < n
  }

  /** The title-to-index dictionary built from a sound listing. */
  function SoundMap(listing: seq<Sound>): map<string, int>
  {
    LastWins(listing, SoundTitle, SoundIndex)
  }

  /** The name-to-category dictionary built from a category listing. */
  function CategoryMap(listing: seq<Category>): map<string, Category>
  {
    LastWins(listing, CategoryName, CategoryItself)
  }

  // ---------------------------------------------------------------------
  // Connection supervision

  /** `Connect`: one `ConnectAsync` when not connected, the transport is not
      already connecting and the last attempt is 2000 ms old; otherwise
      nothing. */
  function ConnectStep(s: ManagerState, w: World): (r: Step<bool>)
    ensures r.effects == (if r.result then [ConnectAsync] else [])
    ensures r.state == (if r.result then s.(lastConnectAttempt := At(w.now)) else s)
  {
    if !s.connected && w.status != Connecting && !InCooldown(w.now, s.lastConnectAttempt, ConnectCooldownMs) then
      Step(s.(lastConnectAttempt := At(w.now)), [ConnectAsync], true)
    else
      Step(s, [], false)
  }

  /** The transport's Disconnected event. */
  function DisconnectedState(s: ManagerState): ManagerState
  {
    s.(connected := false, lastConnectAttempt := Never)
  }

  // ---------------------------------------------------------------------
  // Catalog cache

  /** `CacheAllSounds`: nothing while disconnected or within 2000 ms of the
      last successful fetch; otherwise both listings are fetched, each
      successful one replaces its dictionary, and `SoundsUpdated` is raised
      once if either succeeded. The result says whether it was raised. */
  function RefreshStep(s: ManagerState, w: World): (r: Step<bool>)
    ensures r.state.connected == s.connected && r.state.lastConnectAttempt == s.lastConnectAttempt
    ensures s.sounds.Some? ==> r.state.sounds.Some?
    ensures s.categories.Some? ==> r.state.categories.Some?
    ensures multiset(r.effects)[SoundsUpdated] == if r.result then 1 else 0
  {
    if !s.connected || InCooldown(w.now, s.lastCacheSounds, CacheSoundsCooldownMs) then
      Step(s, [], false)
    else
      var updated := w.soundlist.Fetched? || w.categoryList.Fetched?;
      var sounds := if w.soundlist.Fetched? then Some(SoundMap(w.soundlist.value)) else s.sounds;
      var cats := if w.categoryList.Fetched? then Some(CategoryMap(w.categoryList.value)) else s.categories;
      var last := if updated then At(w.now) else s.lastCacheSounds;
      Step(s.(sounds := sounds, categories := cats, lastCacheSounds := last),
           [GetSoundlist, GetCategories] + (if updated then [SoundsUpdated] else []),
           updated)
  }

  /** The transport's Connected event: connected, then a refresh. */
  function ConnectedStep(s: ManagerState, w: World): (r: Step<bool>)
    ensures r.state.connected
  {
    RefreshStep(s.(connected := true), w)
  }

  /** `LoadPlaylist`: asks the transport to load a list; on success the
      refresh cooldown is cleared and a refresh follows. */
  function LoadPlaylistStep(s: ManagerState, file: string, w: World): (r: Step<bool>)
    ensures r.result == w.commandOk
    ensures |r.effects| > 0 && r.effects[0] == LoadSoundlist(file)
  {
    if w.commandOk then
      var refresh := RefreshStep(s.(lastCacheSounds := Never), w);
      Step(refresh.state, [LoadSoundlist(file)] + refresh.effects, true)
    else
      Step(s, [LoadSoundlist(file)], false)
  }

  /** Refresh first when the dictionary exists but is empty. */
  function RefreshIfEmpty(s: ManagerState, empty: bool, w: World): Step<bool>
  {
    if empty then RefreshStep(s, w) else Step(s, [], false)
  }

  /** `GetAllSounds`. */
  function AllSoundsStep(s: ManagerState, w: World): Step<seq<Sound>>
  {
    match s.sounds
    case None => Step(s, [], [])
    case Some(m) =>
      var refresh := RefreshIfEmpty(s, |m| == 0, w);
      Step(refresh.state, refresh.effects, AllSoundsOf(refresh.state.sounds.value))
  }

  /** `GetCategorySounds`: the empty name and "All sounds" mean every sound. */
  function CategorySoundsStep(s: ManagerState, name: string, w: World): Step<seq<Sound>>
  {
    if name == "" || name == AllSoundsCategory then AllSoundsStep(s, w)
    else match s.categories
      case None => Step(s, [], [])
      case Some(m) =>
        var refresh := RefreshIfEmpty(s, |m| == 0, w);
        var cats := refresh.state.categories.value;
        Step(refresh.state, refresh.effects, if name in cats then SortByName(cats[name].sounds) else [])
  }

  /** `GetAllCategories`. */
  function AllCategoriesStep(s: ManagerState, w: World): Step<seq<Category>>
  {
    match s.categories
    case None => Step(s, [], [])
    case Some(m) =>
      var refresh := RefreshIfEmpty(s, |m| == 0, w);
      Step(refresh.state, refresh.effects, AllCategoriesOf(refresh.state.categories.value))
  }

  // ---------------------------------------------------------------------
  // Playback

  /** While disconnected a playback call only calls `Connect` and fails: it
      sends what `Connect` sends, which is never a play command. */
  function RefusedStep(s: ManagerState, w: World): (r: Step<bool>)
    ensures !r.result
    ensures r.state == ConnectStep(s, w).state && r.effects == ConnectStep(s, w).effects
    ensures forall k :: PlayCommand(k) !in r.effects
  {
    var c := ConnectStep(s, w);
    Step(c.state, c.effects, false)
  }

  /** `PlaySound(int)`. */
  function PlayIndexStep(s: ManagerState, index: int, w: World): Step<bool>
  {
    if !s.connected then RefusedStep(s, w)
    else Step(s, [PlayCommand(index)], w.commandOk)
  }

  /** `PlaySound(string)`, with the title dictionary's null case treated as an
      unknown title (see `PlayTitleAsWritten`). */
  function PlayTitleStep(s: ManagerState, title: string, w: World): Step<bool>
  {
    if !s.connected then RefusedStep(s, w)
    else if s.sounds.Some? && title in s.sounds.value then
      Step(s, [PlayCommand(s.sounds.value[title])], w.commandOk)
    else
      Step(s, [], false)
  }

  /** A call that returns, or one that throws `NullReferenceException`. */
  datatype Outcome<T> = Returned(step: Step<T>) | NullReference

  /** `PlaySound(string)` as written: `dicSounds.ContainsKey` is reached while
      the dictionary may still be null. */
  function PlayTitleAsWritten(s: ManagerState, title: string, w: World): Outcome<bool>
  {
    if !s.connected then Returned(RefusedStep(s, w))
    else if s.sounds.None? then NullReference
    else if title in s.sounds.value then Returned(Step(s, [PlayCommand(s.sounds.value[title])], w.commandOk))
    else Returned(Step(s, [], false))
  }

  /** `PlayRandomSound`: one sound of the category (every sound for the empty
      name), drawn by `rng`; the command's own result is not consulted. */
  function PlayRandomStep(s: ManagerState, name: string, w: World, rng: nat -> nat): Step<bool>
    requires RandomBounded(rng)
  {
    if !s.connected then RefusedStep(s, w)
    else
      var list := if name == "" then AllSoundsStep(s, w) else CategorySoundsStep(s, name, w);
      if |list.result| > 0 then
        var k := rng(|list.result|);
        Step(list.state, list.effects + [PlayCommand(list.result[k].index)], true)
      else
        Step(list.state, list.effects, false)
  }

  // ---------------------------------------------------------------------
  // The manager object

  class SoundpadManager {
    var isProbablyConnected: bool
    var lastConnectAttempt: Time
    var lastCacheSounds: Time
    var dicSounds: Option<map<string, int>>
    var dicCategories: Option<map<string, Category>>

    function State(): ManagerState
      reads this
    {
      ManagerState(isProbablyConnected, lastConnectAttempt, lastCacheSounds, dicSounds, dicCategories)
    }

    /** The constructor: default fields, then a first `Connect`. */
    constructor (w: World)
      ensures State() == ConnectStep(Initial, w).state
    {
      isProbablyConnected := false;
      lastConnectAttempt := Never;
      lastCacheSounds := Never;
      dicSounds := None;
      dicCategories := None;
      new;
      var _, _ := Connect(w);
    }

    function IsConnected(): bool
      reads this
    {
      isProbablyConnected
    }

    method Connect(w: World) returns (attempted: bool, effects: seq<Effect>)
      modifies this
      ensures Step(State(), effects, attempted) == ConnectStep(old(State()), w)
    {
      attempted, effects := false, [];
      if !IsConnected() {
        if w.status == Connecting {
          return;
        }
        if InCooldown(w.now, lastConnectAttempt, ConnectCooldownMs) {
          return;
        }
        lastConnectAttempt := At(w.now);
        attempted, effects := true, [ConnectAsync];
      }
    }

    method OnDisconnected()
      modifies this
      ensures State() == DisconnectedState(old(State()))
    {
      isProbablyConnected := false;
      lastConnectAttempt := Never;
    }

    method OnConnected(w: World) returns (raised: bool, effects: seq<Effect>)
      modifies this
      ensures Step(State(), effects, raised) == ConnectedStep(old(State()), w)
    {
      isProbablyConnected := true;
      raised, effects := CacheAllSounds(w);
    }

    method CacheAllSounds(w: World) returns (soundsUpdated: bool, effects: seq<Effect>)
      modifies this
      ensures Step(State(), effects, soundsUpdated) == RefreshStep(old(State()), w)
    {
      soundsUpdated, effects := false, [];
      if IsConnected() {
        if InCooldown(w.now, lastCacheSounds, CacheSoundsCooldownMs) {
          return;
        }
        effects := effects + [GetSoundlist];
        if w.soundlist.Fetched? {
          var built := FillDictionary(w.soundlist.value, SoundTitle, SoundIndex);
          dicSounds := Some(built);
          lastCacheSounds := At(w.now);
          soundsUpdated := true;
        }
        effects := effects + [GetCategories];
        if w.categoryList.Fetched? {
          var built := FillDictionary(w.categoryList.value, CategoryName, CategoryItself);
          dicCategories := Some(built);
          lastCacheSounds := At(w.now);
          soundsUpdated := true;
        }
        if soundsUpdated {
          effects := effects + [SoundsUpdated];
        }
      }
    }

    method LoadPlaylist(file: string, w: World) returns (ok: bool, effects: seq<Effect>)
      modifies this
      ensures Step(State(), effects, ok) == LoadPlaylistStep(old(State()), file, w)
    {
      effects := [LoadSoundlist(file)];
      if w.commandOk {
        lastCacheSounds := Never;
        var _, refresh := CacheAllSounds(w);
        effects := effects + refresh;
        return true, effects;
      }
      return false, effects;
    }

    method GetAllSounds(w: World) returns (sounds: seq<Sound>, effects: seq<Effect>)
      modifies this
      ensures Step(State(), effects, sounds) == AllSoundsStep(old(State()), w)
    {
      sounds, effects := [], [];
      if dicSounds.Some? {
        if |dicSounds.value| == 0 {
          var _, refresh := CacheAllSounds(w);
          effects := refresh;
        }
        sounds := AllSoundsOf(dicSounds.value);
      }
    }

    method GetCategorySounds(categoryName: string, w: World) returns (sounds: seq<Sound>, effects: seq<Effect>)
      modifies this
      ensures Step(State(), effects, sounds) == CategorySoundsStep(old(State()), categoryName, w)
    {
      if categoryName == "" || categoryName == AllSoundsCategory {
        sounds, effects := GetAllSounds(w);
        return;
      }
      sounds, effects := [], [];
      if dicCategories.Some? {
        if |dicCategories.value| == 0 {
          var _, refresh := CacheAllSounds(w);
          effects := refresh;
        }
        if categoryName in dicCategories.value {
          sounds := SortByName(dicCategories.value[categoryName].sounds);
        }
      }
    }

    method GetAllCategories(w: World) returns (categories: seq<Category>, effects: seq<Effect>)
      modifies this
      ensures Step(State(), effects, categories) == AllCategoriesStep(old(State()), w)
    {
      categories, effects := [], [];
      if dicCategories.Some? {
        if |dicCategories.value| == 0 {
          var _, refresh := CacheAllSounds(w);
          effects := refresh;
        }
        categories := AllCategoriesOf(dicCategories.value);
      }
    }

    method PlaySoundByIndex(soundIndex: int, w: World) returns (ok: bool, effects: seq<Effect>)
      modifies this
      ensures Step(State(), effects, ok) == PlayIndexStep(old(State()), soundIndex, w)
    {
      if !IsConnected() {
        var _, connect := Connect(w);
        return false, connect;
      }
      return w.commandOk, [PlayCommand(soundIndex)];
    }

    method PlaySoundByTitle(soundTitle: string, w: World) returns (ok: bool, effects: seq<Effect>)
      modifies this
      ensures Step(State(), effects, ok) == PlayTitleStep(old(State()), soundTitle, w)
    {
      if !IsConnected() {
        var _, connect := Connect(w);
        return false, connect;
      }
      if dicSounds.Some? && soundTitle in dicSounds.value {
        return w.commandOk, [PlayCommand(dicSounds.value[soundTitle])];
      }
      return false, [];
    }

    method PlayRandomSound(categoryName: string, w: World, rng: nat -> nat) returns (ok: bool, effects: seq<Effect>)
      requires RandomBounded(rng)
      modifies this
      ensures Step(State(), effects, ok) == PlayRandomStep(old(State()), categoryName, w, rng)
    {
      if !IsConnected() {
        var _, connect := Connect(w);
        return false, connect;
      }
      var sounds;
      if categoryName == "" {
        sounds, effects := GetAllSounds(w);
      } else {
        sounds, effects := GetCategorySounds(categoryName, w);
      }
      if |sounds| > 0 {
        var randomSoundIndex := rng(|sounds|);
        effects := effects + [PlayCommand(sounds[randomSoundIndex].index)];
        return true, effects;
      }
      return false, effects;
    }

    method Stop() returns (effects: seq<Effect>)
      ensures effects == [StopSound]
    {
      effects := [StopSound];
    }

    /** Selects the entry, waits for Soundpad to register it, removes it. */
    method RemoveSound(index: int) returns (effects: seq<Effect>)
      ensures effects == [SelectIndex(index), RemoveSelectedEntries]
    {
      effects := [SelectIndex(index), RemoveSelectedEntries];
    }

    method RecordStart() returns (effects: seq<Effect>)
      ensures effects == [StartRecording]
    {
      effects := [StartRecording];
    }

    method RecordStop() returns (effects: seq<Effect>)
      ensures effects == [StopRecording]
    {
      effects := [StopRecording];
    }

    method TogglePause() returns (effects: seq<Effect>)
      ensures effects == [TogglePauseCommand]
    {
      effects := [TogglePauseCommand];
    }
  }
}
