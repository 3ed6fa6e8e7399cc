/** What the manager's steps guarantee across calls: the two cooldowns, the
    reconnect path, what a refresh keeps and replaces, the accessors' lists
    and the playback guards. */
module ManagerProperties {
  import opened Common
  import opened Catalog
  import opened Manager

  // ---------------------------------------------------------------------
  // Connection supervision

  /** `Connect` sends at most one `ConnectAsync`, exactly when not connected,
      the transport is not connecting and the cooldown has run out; then it
      records the attempt time and changes nothing else, and otherwise it
      changes nothing. */
  lemma ConnectOnlyWhenAllowed(s: ManagerState, w: World)
    ensures var r := ConnectStep(s, w);
      && |r.effects| <= 1
      && (ConnectAsync in r.effects <==>
            !s.connected && w.status != Connecting && !InCooldown(w.now, s.lastConnectAttempt, ConnectCooldownMs))
      && (ConnectAsync in r.effects ==> r.state == s.(lastConnectAttempt := At(w.now)))
      && (ConnectAsync !in r.effects ==> r.state == s)
  {
  }

  /** Two `Connect` calls less than 2000 ms apart, on a clock that does not run
      backwards, send at most one connect request. */
  lemma ConnectCooldown(s: ManagerState, w1: World, w2: World)
    requires w1.now <= w2.now < w1.now + ConnectCooldownMs
    ensures var r1 := ConnectStep(s, w1);
      var r2 := ConnectStep(r1.state, w2);
      multiset(r1.effects + r2.effects)[ConnectAsync] <= 1
  {
  }

  /** After the Disconnected event the next `Connect` is never refused by the
      cooldown: it attempts unless the transport is already connecting. */
  lemma ReconnectUnblocked(s: ManagerState, w: World)
    ensures var d := DisconnectedState(s);
      !d.connected && (ConnectStep(d, w).result <==> w.status != Connecting)
  {
  }

  /** The Connected event marks the manager connected and refreshes the
      catalog unless a refresh succeeded less than 2000 ms before. */
  lemma ConnectedRefreshes(s: ManagerState, w: World)
    requires !InCooldown(w.now, s.lastCacheSounds, CacheSoundsCooldownMs)
    ensures var r := ConnectedStep(s, w);
      r.state.connected && r.effects[..2] == [GetSoundlist, GetCategories]
  {
  }

  // ---------------------------------------------------------------------
  // Catalog cache

  /** While disconnected, or within 2000 ms of the last successful fetch, a
      refresh asks nothing of the transport and changes nothing. */
  lemma RefreshIdle(s: ManagerState, w: World)
    requires !s.connected || InCooldown(w.now, s.lastCacheSounds, CacheSoundsCooldownMs)
    ensures RefreshStep(s, w) == Step(s, [], false)
  {
  }

  /** An active refresh fetches both listings. A successful sound listing
      replaces the whole title dictionary with one holding exactly its titles,
      each with the index of its last occurrence; a failed one leaves the
      dictionary as it was. The category listing does the same for its own
      dictionary, independently. The refresh time moves to `now` exactly when
      one of them succeeded. */
  lemma RefreshReplacesOrKeeps(s: ManagerState, w: World)
    requires s.connected && !InCooldown(w.now, s.lastCacheSounds, CacheSoundsCooldownMs)
    ensures var r := RefreshStep(s, w);
      && r.effects[..2] == [GetSoundlist, GetCategories]
      && (w.soundlist.Failed? ==> r.state.sounds == s.sounds)
      && (w.categoryList.Failed? ==> r.state.categories == s.categories)
      && (w.soundlist.Fetched? ==>
            r.state.sounds.Some?
            && (forall t :: t in r.state.sounds.value <==> exists i :: 0 <= i < |w.soundlist.value| && w.soundlist.value[i].name == t))
      && (w.categoryList.Fetched? ==>
            r.state.categories.Some?
            && (forall n :: n in r.state.categories.value <==> exists i :: 0 <= i < |w.categoryList.value| && w.categoryList.value[i].name == n))
      && (r.state.lastCacheSounds == if w.soundlist.Fetched? || w.categoryList.Fetched? then At(w.now) else s.lastCacheSounds)
  {
    var r := RefreshStep(s, w);
    if w.soundlist.Fetched? {
      var l := w.soundlist.value;
      forall t ensures t in r.state.sounds.value <==> exists i :: 0 <= i < |l| && l[i].name == t {
        if t in r.state.sounds.value {
          var i :| 0 <= i < |l| && SoundTitle(l[i]) == t;
        } else {
          forall i | 0 <= i < |l| ensures l[i].name != t {
            assert SoundTitle(l[i]) in SoundMap(l);
          }
        }
      }
    }
    if w.categoryList.Fetched? {
      var l := w.categoryList.value;
      forall n ensures n in r.state.categories.value <==> exists i :: 0 <= i < |l| && l[i].name == n {
        if n in r.state.categories.value {
          var i :| 0 <= i < |l| && CategoryName(l[i]) == n;
        } else {
          forall i | 0 <= i < |l| ensures l[i].name != n {
            assert CategoryName(l[i]) in CategoryMap(l);
          }
        }
      }
    }
  }

  /** A title that occurs last at position `j` of a successful listing is
      cached with the index found there. */
  lemma RefreshKeepsLastDuplicate(s: ManagerState, w: World, j: nat)
    requires s.connected && !InCooldown(w.now, s.lastCacheSounds, CacheSoundsCooldownMs)
    requires w.soundlist.Fetched? && j < |w.soundlist.value|
    requires forall i :: j < i < |w.soundlist.value| ==> w.soundlist.value[i].name != w.soundlist.value[j].name
    ensures var r := RefreshStep(s, w);
      r.state.sounds.Some? && r.state.sounds.value[w.soundlist.value[j].name] == w.soundlist.value[j].index
  {
    var l := w.soundlist.value;
    assert forall i :: j < i < |l| ==> SoundTitle(l[i]) != SoundTitle(l[j]);
    LastWinsKeepsLast(l, SoundTitle, SoundIndex, j);
  }

  /** `SoundsUpdated` is raised exactly once by a refresh that fetched and had
      at least one listing succeed, and never otherwise. */
  lemma SoundsUpdatedOnce(s: ManagerState, w: World)
    ensures var active := s.connected && !InCooldown(w.now, s.lastCacheSounds, CacheSoundsCooldownMs);
      multiset(RefreshStep(s, w).effects)[SoundsUpdated]
        == if active && (w.soundlist.Fetched? || w.categoryList.Fetched?) then 1 else 0
  {
  }

  /** A second refresh less than 2000 ms after one that succeeded fetches
      nothing: callers keep the catalog the first one produced. */
  lemma RefreshCooldownIdempotent(s: ManagerState, w1: World, w2: World)
    requires s.connected && !InCooldown(w1.now, s.lastCacheSounds, CacheSoundsCooldownMs)
    requires w1.soundlist.Fetched? || w1.categoryList.Fetched?
    requires w1.now <= w2.now < w1.now + CacheSoundsCooldownMs
    ensures var r1 := RefreshStep(s, w1);
      RefreshStep(r1.state, w2) == Step(r1.state, [], false)
  {
  }

  /** A successful `LoadPlaylist` on a connected manager is followed by a
      refresh that is never held back by the cooldown; a failed one changes
      nothing and reports false. */
  lemma LoadPlaylistRefreshes(s: ManagerState, file: string, w: World)
    ensures var r := LoadPlaylistStep(s, file, w);
      && (w.commandOk && s.connected ==> r.result && r.effects[..3] == [LoadSoundlist(file), GetSoundlist, GetCategories])
      && (!w.commandOk ==> r == Step(s, [LoadSoundlist(file)], false))
  {
  }

  // ---------------------------------------------------------------------
  // Accessors

  /** The empty name and "All sounds" give `GetAllSounds`' answer. */
  lemma CategoryAliasesAllSounds(s: ManagerState, w: World)
    ensures CategorySoundsStep(s, "", w) == AllSoundsStep(s, w)
    ensures CategorySoundsStep(s, AllSoundsCategory, w) == AllSoundsStep(s, w)
  {
  }

  /** A dictionary that is still null gives an empty list without a refresh;
      each accessor looks only at its own dictionary. */
  lemma NullCacheGivesEmpty(s: ManagerState, name: string, w: World)
    ensures s.sounds.None? ==> AllSoundsStep(s, w) == Step(s, [], [])
    ensures s.categories.None? ==> AllCategoriesStep(s, w) == Step(s, [], [])
    ensures s.categories.None? && name != "" && name != AllSoundsCategory ==>
      CategorySoundsStep(s, name, w) == Step(s, [], [])
  {
  }

  /** A title dictionary that exists but is empty is refreshed before it is
      read: the accessor sends the refresh's requests (one sound listing at
      most) and lists what the refresh left. */
  lemma EmptyCacheRefreshesFirst(s: ManagerState, w: World)
    requires s.sounds == Some(map[])
    ensures var r := AllSoundsStep(s, w);
      var refresh := RefreshStep(s, w);
      && r.effects == refresh.effects
      && multiset(r.effects)[GetSoundlist] <= 1
      && r.result == AllSoundsOf(refresh.state.sounds.value)
  {
  }

  /** The same for a category dictionary that exists but is empty: both
      category accessors send the refresh's requests (one category listing at
      most) and read the dictionary the refresh left. */
  lemma EmptyCategoriesRefreshFirst(s: ManagerState, name: string, w: World)
    requires s.categories == Some(map[])
    ensures var r := AllCategoriesStep(s, w);
      var refresh := RefreshStep(s, w);
      && r.state == refresh.state
      && r.effects == refresh.effects
      && multiset(r.effects)[GetCategories] <= 1
      && r.result == AllCategoriesOf(refresh.state.categories.value)
    ensures name != "" && name != AllSoundsCategory ==>
      var r := CategorySoundsStep(s, name, w);
      var refresh := RefreshStep(s, w);
      var cats := refresh.state.categories.value;
      && r.state == refresh.state
      && r.effects == refresh.effects
      && (name !in cats ==> r.result == [])
      && (name in cats ==> multiset(r.result) == multiset(cats[name].sounds) && SortedByName(r.result))
  {
  }

  /** A filled title dictionary is read as is: one sound per cached title,
      ascending by title, with the cached index, and no request is sent. */
  lemma AllSoundsListsCache(s: ManagerState, w: World)
    requires s.sounds.Some? && |s.sounds.value| > 0
    ensures var r := AllSoundsStep(s, w);
      var m := s.sounds.value;
      && r.state == s && r.effects == []
      && |r.result| == |m|
      && StrictlyAscending(Names(r.result))
      && (forall t :: t in m <==> exists i :: 0 <= i < |r.result| && r.result[i].name == t)
      && (forall i :: 0 <= i < |r.result| ==> r.result[i].index == m[r.result[i].name])
  {
    var r := AllSoundsStep(s, w);
    var m := s.sounds.value;
    forall t | t in m ensures exists i :: 0 <= i < |r.result| && r.result[i].name == t {
      var i :| 0 <= i < |r.result| && r.result[i] == Sound(t, m[t]);
    }
  }

  /** A category the filled dictionary does not hold gives an empty list;
      one it holds gives its sounds ordered by title. */
  lemma CategorySoundsLookup(s: ManagerState, name: string, w: World)
    requires name != "" && name != AllSoundsCategory
    requires s.categories.Some? && |s.categories.value| > 0
    ensures var r := CategorySoundsStep(s, name, w);
      var m := s.categories.value;
      && r.state == s && r.effects == []
      && (name !in m ==> r.result == [])
      && (name in m ==> multiset(r.result) == multiset(m[name].sounds) && SortedByName(r.result))
  {
  }

  // ---------------------------------------------------------------------
  // Playback

  /** While disconnected, both `PlaySound` overloads fail after a `Connect`
      and send no play command. */
  lemma PlayRefusedWhileDisconnected(s: ManagerState, index: int, title: string, w: World)
    requires !s.connected
    ensures var c := ConnectStep(s, w);
      && PlayIndexStep(s, index, w) == Step(c.state, c.effects, false)
      && PlayTitleStep(s, title, w) == Step(c.state, c.effects, false)
      && (forall k :: PlayCommand(k) !in c.effects)
  {
  }

  /** While connected, `PlaySound(int)` plays that index and reports the
      command's success, and `PlaySound(string)` plays exactly the cached
      index of a known title; an unknown title fails without any request. */
  lemma PlayWhileConnected(s: ManagerState, index: int, title: string, w: World)
    requires s.connected
    ensures PlayIndexStep(s, index, w) == Step(s, [PlayCommand(index)], w.commandOk)
    ensures s.sounds.Some? && title in s.sounds.value ==>
      PlayTitleStep(s, title, w) == Step(s, [PlayCommand(s.sounds.value[title])], w.commandOk)
    ensures !(s.sounds.Some? && title in s.sounds.value) ==>
      PlayTitleStep(s, title, w) == Step(s, [], false)
  {
  }

  /** The title lookup on the catalog {"Applause": 3, "Boo": 7}. */
  lemma TitleLookupExample(w: World)
    requires w.commandOk
    ensures var s := ManagerState(true, Never, At(0), Some(map["Applause" := 3, "Boo" := 7]), None);
      && PlayTitleStep(s, "Applause", w) == Step(s, [PlayCommand(3)], true)
      && PlayTitleStep(s, "Unknown", w) == Step(s, [], false)
  {
  }

  /** `PlayRandomSound` fails exactly when disconnected or when the list it
      draws from is empty; otherwise it plays the sound at the drawn position,
      which lies inside the list. The empty name draws from every sound. */
  lemma PlayRandomContract(s: ManagerState, name: string, w: World, rng: nat -> nat)
    requires RandomBounded(rng)
    ensures var r := PlayRandomStep(s, name, w, rng);
      var list := if name == "" then AllSoundsStep(s, w) else CategorySoundsStep(s, name, w);
      && (r.result <==> s.connected && |list.result| > 0)
      && (r.result ==>
            var k := rng(|list.result|);
            0 <= k < |list.result| && r.effects == list.effects + [PlayCommand(list.result[k].index)])
  {
  }

  /** `PlayRandomSound` reports success whatever the play command's own
      result. */
  lemma PlayRandomIgnoresCommandResult(s: ManagerState, name: string, w: World, rng: nat -> nat)
    requires RandomBounded(rng)
    ensures PlayRandomStep(s, name, w, rng) == PlayRandomStep(s, name, w.(commandOk := !w.commandOk), rng)
  {
    var w' := w.(commandOk := !w.commandOk);
    ListsIgnoreCommandResult(s, name, w, w');
  }

  /** The refresh and the accessors read neither the play command's nor the
      load command's result. */
  lemma ListsIgnoreCommandResult(s: ManagerState, name: string, w: World, w': World)
    requires w' == w.(commandOk := w'.commandOk)
    ensures RefreshStep(s, w) == RefreshStep(s, w')
    ensures AllSoundsStep(s, w) == AllSoundsStep(s, w')
    ensures CategorySoundsStep(s, name, w) == CategorySoundsStep(s, name, w')
  {
    assert w.soundlist == w'.soundlist && w.categoryList == w'.categoryList && w.now == w'.now;
    assert w.status == w'.status;
    var r := RefreshStep(s, w);
    assert r == RefreshStep(s, w');
    assert AllSoundsStep(s, w) == AllSoundsStep(s, w');
  }

  // ---------------------------------------------------------------------
  // The title dictionary may still be null when `PlaySound(string)` runs

  /** Reachable: the first Connected event arrives while the transport cannot
      list sounds, so the title dictionary stays null; the next
      `PlaySound(string)` as written dereferences it. */
  lemma PlayTitleNullReference(w0: World, w1: World, w2: World)
    requires w0.status == Disconnected
    requires w1.soundlist.Failed?
    ensures var s1 := ConnectStep(Initial, w0).state;
      var s2 := ConnectedStep(s1, w1).state;
      && ConnectStep(Initial, w0).effects == [ConnectAsync]
      && s2.connected && s2.sounds.None?
      && PlayTitleAsWritten(s2, "Applause", w2) == NullReference
  {
  }

  /** The corrected `PlaySound(string)` returns wherever the code as written
      throws, with the same answer where the code as written returns, and then
      fails without a request: it plays only cached titles. */
  lemma PlayTitleCorrected(s: ManagerState, title: string, w: World)
    ensures PlayTitleAsWritten(s, title, w).Returned? ==> PlayTitleAsWritten(s, title, w).step == PlayTitleStep(s, title, w)
    ensures PlayTitleAsWritten(s, title, w).NullReference? ==> PlayTitleStep(s, title, w) == Step(s, [], false)
    ensures forall k :: PlayCommand(k) in PlayTitleStep(s, title, w).effects ==>
      s.connected && s.sounds.Some? && title in s.sounds.value && k == s.sounds.value[title]
  {
  }
}
