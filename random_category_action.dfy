/** `SoundpadPlayRandomActionFromCategory`: a key that plays a random sound of
    one Soundpad category, optionally from a shuffled queue that avoids
    playing the same sound twice in a row. The category list the manager
    returns, the random source and the manager's `PlaySound` answer are
    parameters. */
module RandomCategoryAction {
  import opened Common
  import opened Catalog
  import opened Manager
  import opened ActionCommon

  datatype CategorySettings = CategorySettings(
    categoryTitle: Option<string>,
    showCategoryTitle: bool,
    categoryIndex: Option<string>,
    avoidRepetition: bool,
    pushToPlay: bool)

  /** `PluginSettings.CreateDefaultSettings`; AvoidRepetition is left at
      false. */
  const DefaultSettings: CategorySettings := CategorySettings(Some(""), false, Some(""), false, false)

  // ---------------------------------------------------------------------
  // Choosing the category

  /** Whether a category is the one the settings ask for: by its index when
      the index setting is non-empty (never, when that setting is not an
      Int32), by its name otherwise. */
  predicate Selects(s: CategorySettings, c: Category)
  {
    if !IsNullOrEmpty(s.categoryIndex) then TryParseInt32(s.categoryIndex) == Some(c.index)
    else s.categoryTitle == Some(c.name)
  }

  function FirstSelected(s: CategorySettings, cats: seq<Category>): (k: nat)
    ensures k <= |cats|
    ensures k < |cats| ==> Selects(s, cats[k])
    ensures forall j :: 0 <= j < k ==> !Selects(s, cats[j])
  {
    if cats == [] then 0
    else if Selects(s, cats[0]) then 0
    else 1 + FirstSelected(s, cats[1..])
  }

  /** `FirstOrDefault` over the categories with the selector above. */
  function ResolveCategory(s: CategorySettings, cats: seq<Category>): (r: Option<Category>)
    ensures r.None? <==> forall j :: 0 <= j < |cats| ==> !Selects(s, cats[j])
    ensures r.Some? ==> exists k :: (0 <= k < |cats| && cats[k] == r.value && Selects(s, r.value)
      && forall j :: 0 <= j < k ==> !Selects(s, cats[j]))
  {
    var k := FirstSelected(s, cats);
    if k < |cats| then Some(cats[k]) else None
  }

  /** The category a key press plays from: none while Soundpad is not
      connected or neither setting is filled in. */
  function PressCategory(connected: bool, s: CategorySettings, cats: seq<Category>): (r: Option<Category>)
    ensures r.Some? ==> connected && r.value in cats && Selects(s, r.value)
    ensures connected && (!IsNullOrEmpty(s.categoryTitle) || !IsNullOrEmpty(s.categoryIndex)) ==>
      r == ResolveCategory(s, cats)
  {
    if connected && (!IsNullOrEmpty(s.categoryTitle) || !IsNullOrEmpty(s.categoryIndex)) then
      ResolveCategory(s, cats)
    else
      None
  }

  /** An index setting written from a category's own index finds the first
      category with that index, whatever its name and the title setting. */
  lemma IndexSettingFindsCategory(s: CategorySettings, cats: seq<Category>, k: nat)
    requires k < |cats| && IsInt32(cats[k].index)
    requires forall j :: 0 <= j < k ==> cats[j].index != cats[k].index
    requires s.categoryIndex == Some(IntToString(cats[k].index))
    ensures ResolveCategory(s, cats) == Some(cats[k])
  {
    IntToStringRoundTrip(cats[k].index);
    assert Selects(s, cats[k]);
  }

  /** A non-empty index setting that is not an Int32 selects nothing, even
      when the title setting names an existing category. */
  lemma UnparsableIndexSelectsNothing(s: CategorySettings, cats: seq<Category>)
    requires !IsNullOrEmpty(s.categoryIndex) && TryParseInt32(s.categoryIndex).None?
    ensures ResolveCategory(s, cats) == None
  {
  }

  // ---------------------------------------------------------------------
  // The shuffled queue

  predicate Distinct(xs: seq<int>)
  {
    forall i, j :: 0 <= i < j < |xs| ==> xs[i] != xs[j]
  }

  /** No sound index follows itself directly. */
  ghost predicate NoAdjacentRepeats(xs: seq<int>)
  {
    forall i, j :: 0 <= i < j < |xs| && j == i + 1 ==> xs[i] != xs[j]
  }

  /** `OrderBy(x => RandomGenerator.Next(0, int.MaxValue))`: some
      rearrangement of its input. */
  ghost predicate IsShuffle(order: seq<int> -> seq<int>)
  {
    forall xs :: multiset(order(xs)) == multiset(xs)
  }

  /** `shuffledQueue.Reverse().Take(avoid)`, where avoid is 1 for a category
      of more than one sound and 0 otherwise. */
  function Avoided(queue: seq<int>, count: nat): seq<int>
  {
    if count > 1 && queue != [] then [queue[|queue| - 1]] else []
  }

  /** `Where(x => !avoided.Contains(x))`. */
  function Remove(xs: seq<int>, avoided: seq<int>): (r: seq<int>)
    ensures forall x :: multiset(r)[x] == if x in avoided then 0 else multiset(xs)[x]
  {
    if xs == [] then []
    else
      assert xs == [xs[0]] + xs[1..];
      (if xs[0] in avoided then [] else [xs[0]]) + Remove(xs[1..], avoided)
  }

  /** One pass of the refill loop: the category's sound indices without the
      avoided one, shuffled. */
  function Batch(queue: seq<int>, indices: seq<int>, order: seq<int> -> seq<int>): seq<int>
  {
    order(Remove(indices, Avoided(queue, |indices|)))
  }

  lemma {:induction false} DistinctCounts(xs: seq<int>)
    requires Distinct(xs)
    ensures forall x :: multiset(xs)[x] <= 1
  {
    if xs != [] {
      assert Distinct(xs[1..]);
      DistinctCounts(xs[1..]);
      assert xs == [xs[0]] + xs[1..];
      assert xs[0] !in xs[1..];
    }
  }

  lemma CountsDistinct(xs: seq<int>)
    requires forall x :: multiset(xs)[x] <= 1
    ensures Distinct(xs)
  {
    forall i, j | 0 <= i < j < |xs|
      ensures xs[i] != xs[j]
    {
      PairCount(xs, i, j);
    }
  }

  /** Two positions holding the same value count twice in the multiset. */
  lemma PairCount(xs: seq<int>, i: nat, j: nat)
    requires i < j < |xs|
    ensures multiset(xs)[xs[i]] >= if xs[i] == xs[j] then 2 else 1
  {
    assert xs == xs[..i] + [xs[i]] + xs[i + 1..j] + [xs[j]] + xs[j + 1..];
  }

  /** Each batch is a rearrangement of the category's sound indices, less the
      queue's last entry when the category has more than one sound. */
  lemma BatchCounts(queue: seq<int>, indices: seq<int>, order: seq<int> -> seq<int>)
    requires IsShuffle(order)
    ensures forall x :: (multiset(Batch(queue, indices, order))[x] ==
      if |indices| > 1 && queue != [] && x == queue[|queue| - 1] then 0 else multiset(indices)[x])
  {
    var avoided := Avoided(queue, |indices|);
    var rest := Remove(indices, avoided);
    assert multiset(Batch(queue, indices, order)) == multiset(rest);
    forall x ensures x in avoided <==> |indices| > 1 && queue != [] && x == queue[|queue| - 1] {
    }
  }

  /** So a batch never starts with that entry, it holds no index twice, and
      it is never empty for a category with sounds. */
  lemma {:induction false} BatchContents(queue: seq<int>, indices: seq<int>, order: seq<int> -> seq<int>)
    requires Distinct(indices) && IsShuffle(order)
    ensures forall x :: (multiset(Batch(queue, indices, order))[x] ==
      if |indices| > 1 && queue != [] && x == queue[|queue| - 1] then 0 else multiset(indices)[x])
    ensures |indices| >= 1 ==> |Batch(queue, indices, order)| >= 1
    ensures Distinct(Batch(queue, indices, order))
  {
    var b := Batch(queue, indices, order);
    BatchCounts(queue, indices, order);
    DistinctCounts(indices);
    CountsDistinct(b);
    if |indices| >= 1 {
      var keep := if |indices| > 1 && queue != [] && indices[0] == queue[|queue| - 1]
                  then indices[1] else indices[0];
      assert keep in multiset(indices);
      assert multiset(b)[keep] == multiset(indices)[keep];
      assert keep in multiset(b);
    }
  }

  /** The refill loop: appends batches until more entries are queued than
      the category has sounds. */
  function Refill(queue: seq<int>, indices: seq<int>, order: seq<int> -> seq<int>): (r: seq<int>)
    requires |indices| >= 1 && Distinct(indices) && IsShuffle(order)
    ensures |r| >= |indices| + 1
    ensures queue <= r
    decreases |indices| + 1 - |queue|
  {
    if |queue| >= |indices| + 1 then queue
    else
      BatchContents(queue, indices, order);
      Refill(queue + Batch(queue, indices, order), indices, order)
  }

  /** A press with AvoidRepetition on: refill, then dequeue the head. */
  datatype Draw = Draw(played: int, queue: seq<int>)

  function Dequeue(queue: seq<int>, indices: seq<int>, order: seq<int> -> seq<int>): (d: Draw)
    requires |indices| >= 1 && Distinct(indices) && IsShuffle(order)
    ensures |d.queue| >= |indices|
    ensures queue != [] ==> d.played == queue[0] && queue[1..] <= d.queue
  {
    var full := Refill(queue, indices, order);
    Draw(full[0], full[1..])
  }

  /** The sounds successive presses play, one shuffle per press, while the
      category keeps its size. */
  function Draws(queue: seq<int>, indices: seq<int>, orders: seq<seq<int> -> seq<int>>): (r: seq<int>)
    requires |indices| >= 1 && Distinct(indices)
    requires forall k :: 0 <= k < |orders| ==> IsShuffle(orders[k])
    ensures |r| == |orders|
    decreases |orders|
  {
    if orders == [] then []
    else
      var d := Dequeue(queue, indices, orders[0]);
      [d.played] + Draws(d.queue, indices, orders[1..])
  }

  /** Presses play the queue in order as long as it lasts. */
  lemma {:induction false} DrawsFollowQueue(queue: seq<int>, indices: seq<int>, orders: seq<seq<int> -> seq<int>>)
    requires |indices| >= 1 && Distinct(indices)
    requires forall k :: 0 <= k < |orders| ==> IsShuffle(orders[k])
    requires |orders| <= |queue|
    ensures Draws(queue, indices, orders) == queue[..|orders|]
    decreases |orders|
  {
    if orders != [] {
      var d := Dequeue(queue, indices, orders[0]);
      DrawsFollowQueue(d.queue, indices, orders[1..]);
      assert d.queue[..|orders| - 1] == queue[1..][..|orders| - 1];
      assert queue[..|orders|] == [queue[0]] + queue[1..][..|orders| - 1];
    }
  }

  /** The first batch for an empty queue is the whole category, shuffled. */
  lemma FirstBatch(indices: seq<int>, order: seq<int> -> seq<int>)
    requires |indices| >= 1 && Distinct(indices) && IsShuffle(order)
    ensures Batch([], indices, order) == order(indices)
    ensures |order(indices)| == |indices| && Distinct(order(indices))
    ensures order(indices) <= Refill([], indices, order)
  {
    RemoveNothing(indices);
    BatchContents([], indices, order);
    assert |multiset(order(indices))| == |multiset(indices)|;
    assert [] + Batch([], indices, order) == order(indices);
  }

  /** From an empty queue, the first presses, as many as the category has
      sounds, play every sound of the category exactly once. */
  lemma FirstRoundPlaysEachOnce(indices: seq<int>, orders: seq<seq<int> -> seq<int>>)
    requires |indices| >= 1 && Distinct(indices)
    requires forall k :: 0 <= k < |orders| ==> IsShuffle(orders[k])
    requires |orders| == |indices|
    ensures multiset(Draws([], indices, orders)) == multiset(indices)
    ensures Distinct(Draws([], indices, orders))
  {
    var o := orders[0];
    FirstBatch(indices, o);
    FreshDequeue(indices, o);
    var d := Dequeue([], indices, o);
    var rest := orders[1..];
    DrawsFollowQueue(d.queue, indices, rest);
    assert Draws([], indices, orders) == [d.played] + Draws(d.queue, indices, rest);
    assert Draws([], indices, orders) == o(indices);
  }

  /** The first press on an empty queue plays the head of the first batch
      and keeps the rest of that batch in front. */
  lemma FreshDequeue(indices: seq<int>, order: seq<int> -> seq<int>)
    requires |indices| >= 1 && Distinct(indices) && IsShuffle(order)
    ensures var d := Dequeue([], indices, order);
      |order(indices)| == |indices|
      && d.played == order(indices)[0] && d.queue[..|indices| - 1] == order(indices)[1..]
  {
    FirstBatch(indices, order);
    var first := order(indices);
    var full := Refill([], indices, order);
    assert first <= full;
    assert Dequeue([], indices, order) == Draw(full[0], full[1..]);
    assert full[0] == first[0];
    assert full[1..][..|indices| - 1] == first[1..] by {
      forall i | 0 <= i < |indices| - 1 ensures full[1..][i] == first[1..][i] {
        assert full[i + 1] == first[i + 1];
      }
    }
  }

  lemma {:induction false} RemoveNothing(xs: seq<int>)
    ensures Remove(xs, []) == xs
  {
    if xs != [] {
      RemoveNothing(xs[1..]);
      assert xs == [xs[0]] + xs[1..];
    }
  }

  /** A refill never places a sound right behind itself, for a category of
      more than one sound. */
  lemma {:induction false} RefillNoAdjacentRepeats(queue: seq<int>, indices: seq<int>, order: seq<int> -> seq<int>)
    requires |indices| > 1 && Distinct(indices) && IsShuffle(order)
    requires NoAdjacentRepeats(queue)
    ensures NoAdjacentRepeats(Refill(queue, indices, order))
    decreases |indices| + 1 - |queue|
  {
    if |queue| < |indices| + 1 {
      var b := Batch(queue, indices, order);
      BatchContents(queue, indices, order);
      var next := queue + b;
      forall i, j | 0 <= i < j < |next| && j == i + 1
        ensures next[i] != next[j]
      {
        if j < |queue| {
          assert next[i] == queue[i] && next[j] == queue[j];
        } else if i >= |queue| {
          assert next[i] == b[i - |queue|] && next[j] == b[j - |queue|];
        } else {
          assert next[i] == queue[|queue| - 1] && next[j] == b[0];
          assert b[0] in multiset(b);
        }
      }
      RefillNoAdjacentRepeats(next, indices, order);
    }
  }

  /** With AvoidRepetition on and more than one sound in the category, two
      successive presses never play the same sound, and the queue left
      behind keeps that guarantee for the next press. */
  lemma ConsecutiveDrawsDiffer(queue: seq<int>, indices: seq<int>, o1: seq<int> -> seq<int>, o2: seq<int> -> seq<int>)
    requires |indices| > 1 && Distinct(indices) && IsShuffle(o1) && IsShuffle(o2)
    requires NoAdjacentRepeats(queue)
    ensures NoAdjacentRepeats(Dequeue(queue, indices, o1).queue)
    ensures Dequeue(queue, indices, o1).played != Dequeue(Dequeue(queue, indices, o1).queue, indices, o2).played
  {
    var full := Refill(queue, indices, o1);
    RefillNoAdjacentRepeats(queue, indices, o1);
    var d := Dequeue(queue, indices, o1);
    assert d.queue == full[1..];
    assert full[0] != full[1];
    forall i, j | 0 <= i < j < |d.queue| && j == i + 1
      ensures d.queue[i] != d.queue[j]
    {
      assert d.queue[i] == full[i + 1] && d.queue[j] == full[j + 1];
    }
  }

  // ---------------------------------------------------------------------
  // A category without sounds (see the findings)

  /** One pass of the refill loop exactly as written, for any category. */
  function RefillPassAsWritten(queue: seq<int>, indices: seq<int>, order: seq<int> -> seq<int>): seq<int>
  {
    queue + Batch(queue, indices, order)
  }

  /** For a category without sounds the queue is emptied (its recorded size
      is never 0 before a pass completes), every pass appends nothing, and
      the loop condition `0 < 0 + 1` stays true: the refill loop never ends. */
  lemma EmptyCategoryRefillNeverEnds(order: seq<int> -> seq<int>)
    requires IsShuffle(order)
    ensures RefillPassAsWritten([], [], order) == []
    ensures |RefillPassAsWritten([], [], order)| < 0 + 1
  {
    assert multiset(order([])) == multiset([]);
  }

  /** The plain branch exactly as written: `Next(Count)`, then the sound at
      that position, or None where .NET would throw. */
  function PlainPickAsWritten(sounds: seq<Sound>, rng: nat -> nat): Option<int>
  {
    var local := rng(|sounds|);
    if local < |sounds| then Some(sounds[local].index) else None
  }

  /** `Next(0)` returns 0, which is no position of an empty category: the
      plain branch indexes past the end. */
  lemma EmptyCategoryPlainPickFails(rng: nat -> nat)
    requires rng(0) == 0
    ensures PlainPickAsWritten([], rng) == None
  {
  }

  // ---------------------------------------------------------------------
  // The title and the property inspector

  predicate ShowsTitle(s: CategorySettings)
  {
    s.showCategoryTitle && !IsNullOrEmpty(s.categoryTitle) && IsNullOrEmpty(s.categoryIndex)
  }

  datatype TitleTick = TitleTick(drawn: bool, output: TickOutput)

  /** `OnTick`: the title is drawn once when it should show and is not yet
      drawn, cleared once when it is drawn and should not show, and
      forgotten while Soundpad is not connected. */
  function Tick(drawn: bool, connected: bool, s: CategorySettings): (r: TitleTick)
    ensures !connected ==> r == TitleTick(false, NotRunningTick)
    ensures connected ==> r.output.image == DefaultImage && r.drawn == ShowsTitle(s)
    ensures connected ==> (r.output.title != KeepTitle <==> drawn != ShowsTitle(s))
    ensures connected && ShowsTitle(s) && !drawn ==> r.output.title == SetTitle(s.categoryTitle)
    ensures connected && !ShowsTitle(s) && drawn ==> r.output.title == SetTitle(Some(""))
  {
    if !connected then TitleTick(false, NotRunningTick)
    else if ShowsTitle(s) then
      if !drawn then TitleTick(true, TickOutput(DefaultImage, SetTitle(s.categoryTitle)))
      else TitleTick(true, TickOutput(DefaultImage, KeepTitle))
    else if drawn then TitleTick(false, TickOutput(DefaultImage, SetTitle(Some(""))))
    else TitleTick(false, TickOutput(DefaultImage, KeepTitle))
  }

  /** While connected and the settings stay the same, the title is set at
      most once: the following tick leaves it alone. */
  lemma TitleSetAtMostOnce(drawn: bool, s: CategorySettings)
    ensures var second := Tick(Tick(drawn, true, s).drawn, true, s);
      second.output.title == KeepTitle && second.drawn == Tick(drawn, true, s).drawn
  {
  }

  /** After a disconnection the first connected tick draws the title again
      when it is to be shown. */
  lemma TitleRedrawnAfterReconnect(drawn: bool, s: CategorySettings)
    requires ShowsTitle(s)
    ensures Tick(Tick(drawn, false, s).drawn, true, s).output.title == SetTitle(s.categoryTitle)
  {
  }

  /** The inspector handler as written: the lower-cased message is compared
      with "refreshSounds", which has an upper-case letter. */
  function InspectorRefreshAsWritten(message: string): bool
  {
    RequestsRefresh(message, "refreshSounds")
  }

  lemma InspectorRefreshNeverFires(message: string)
    ensures !InspectorRefreshAsWritten(message)
  {
    if |message| > 7 {
      assert ToLowerInvariant(message)[7] != 'S';
    }
    assert "refreshSounds"[7] == 'S';
  }

  /** The handler as intended: both sides of the comparison in lower case,
      as the play action has it. */
  function InspectorRefresh(message: string): bool
  {
    RequestsRefresh(message, "refreshsounds")
  }

  lemma InspectorRefreshFires()
    ensures InspectorRefresh("refreshSounds")
  {
    LowerCaseMatch("refreshSounds", "refreshsounds");
  }

  // ---------------------------------------------------------------------
  // The action

  class SoundpadPlayRandomActionFromCategory {
    var settings: CategorySettings
    var titleIsDrawn: bool
    var shuffledQueue: seq<int>
    var shuffledQueueOriginalSize: int

    constructor (payload: Option<CategorySettings>)
      ensures settings == if payload.Some? then payload.value else DefaultSettings
      ensures !titleIsDrawn && shuffledQueue == [] && shuffledQueueOriginalSize == -1
    {
      settings := if payload.Some? then payload.value else DefaultSettings;
      titleIsDrawn := false;
      shuffledQueue := [];
      shuffledQueueOriginalSize := -1;
    }

    /** A key press against the categories the manager reports. A category
        without sounds plays nothing. With AvoidRepetition the queue is
        emptied when the category's size changed, refilled, and its head
        played; otherwise a sound at a random position is played. */
    method KeyPressed(connected: bool, categories: seq<Category>, rng: nat -> nat,
                      order: seq<int> -> seq<int>, playResult: bool)
      returns (played: Option<int>, feedback: Feedback)
      requires RandomBounded(rng) && IsShuffle(order)
      requires forall c :: c in categories ==> Distinct(Indices(c.sounds))
      modifies this`shuffledQueue, this`shuffledQueueOriginalSize
      ensures feedback == if played.Some? && playResult then ShowOk else ShowAlert
      ensures var target := PressCategory(connected, settings, categories);
        && (target.None? || |target.value.sounds| == 0 ==>
              played == None && shuffledQueue == old(shuffledQueue)
              && shuffledQueueOriginalSize == old(shuffledQueueOriginalSize))
        && (target.Some? && |target.value.sounds| > 0 && !settings.avoidRepetition ==>
              played == Some(target.value.sounds[rng(|target.value.sounds|)].index)
              && shuffledQueue == old(shuffledQueue)
              && shuffledQueueOriginalSize == old(shuffledQueueOriginalSize))
        && (target.Some? && |target.value.sounds| > 0 && settings.avoidRepetition ==>
              var indices := Indices(target.value.sounds);
              var start := if old(shuffledQueueOriginalSize) == |indices| then old(shuffledQueue) else [];
              played == Some(Dequeue(start, indices, order).played)
              && shuffledQueue == Dequeue(start, indices, order).queue
              && shuffledQueueOriginalSize == |indices|)
    {
      played := None;
      var target := PressCategory(connected, settings, categories);
      if target.Some? && |target.value.sounds| > 0 {
        var sounds := target.value.sounds;
        if settings.avoidRepetition {
          var indices := Indices(sounds);
          RefillQueue(indices, order);
          played := Some(shuffledQueue[0]);
          shuffledQueue := shuffledQueue[1..];
        } else {
          var local := rng(|sounds|);
          played := Some(sounds[local].index);
        }
      }
      feedback := if played.Some? && playResult then ShowOk else ShowAlert;
    }

    /** The queue handling of a press with AvoidRepetition on, up to the
        dequeue: emptied when the category's size changed, then refilled. */
    method RefillQueue(indices: seq<int>, order: seq<int> -> seq<int>)
      requires |indices| >= 1 && Distinct(indices) && IsShuffle(order)
      modifies this`shuffledQueue, this`shuffledQueueOriginalSize
      ensures var start := if old(shuffledQueueOriginalSize) == |indices| then old(shuffledQueue) else [];
        shuffledQueue == Refill(start, indices, order)
      ensures shuffledQueueOriginalSize == |indices|
    {
      if shuffledQueueOriginalSize != |indices| {
        shuffledQueue := [];
      }
      ghost var start := shuffledQueue;
      var didAppend := false;
      while |shuffledQueue| < |indices| + 1
        invariant Refill(shuffledQueue, indices, order) == Refill(start, indices, order)
        invariant start == [] || old(shuffledQueueOriginalSize) == |indices|
        invariant didAppend ==> shuffledQueueOriginalSize == |indices|
        invariant !didAppend ==> (shuffledQueue == start
          && shuffledQueueOriginalSize == old(shuffledQueueOriginalSize))
        decreases |indices| + 1 - |shuffledQueue|
      {
        var avoidCount := 1;
        if |indices| <= avoidCount {
          avoidCount := 0;
        }
        var avoided := if avoidCount == 1 && |shuffledQueue| > 0 then [shuffledQueue[|shuffledQueue| - 1]] else [];
        var iterationResult := order(Remove(indices, avoided));
        assert iterationResult == Batch(shuffledQueue, indices, order);
        BatchContents(shuffledQueue, indices, order);
        Enqueue(iterationResult);
        shuffledQueueOriginalSize := |indices|;
        didAppend := true;
      }
    }

    /** `Enqueue` of each item in turn. */
    method Enqueue(items: seq<int>)
      modifies this`shuffledQueue
      ensures shuffledQueue == old(shuffledQueue) + items
    {
      var k := 0;
      while k < |items|
        invariant 0 <= k <= |items|
        invariant shuffledQueue == old(shuffledQueue) + items[..k]
      {
        shuffledQueue := shuffledQueue + [items[k]];
        k := k + 1;
      }
      assert items[..k] == items;
    }

    method KeyReleased() returns (effects: seq<Effect>)
      ensures effects == ReleaseEffects(settings.pushToPlay)
    {
      effects := [];
      if settings.pushToPlay {
        effects := [StopSound];
      }
    }

    method OnTick(connected: bool) returns (output: TickOutput)
      modifies this`titleIsDrawn
      ensures TitleTick(titleIsDrawn, output) == Tick(old(titleIsDrawn), connected, settings)
    {
      if !connected {
        titleIsDrawn := false;
        return NotRunningTick;
      }
      output := TickOutput(DefaultImage, KeepTitle);
      if ShowsTitle(settings) {
        if !titleIsDrawn {
          output := output.(title := SetTitle(settings.categoryTitle));
          titleIsDrawn := true;
        }
      } else if titleIsDrawn {
        output := output.(title := SetTitle(Some("")));
        titleIsDrawn := false;
      }
    }

    /** `ReceivedSettings`: takes the new settings and blanks a category index
        that is not an Int32. */
    method ReceivedSettings(incoming: CategorySettings)
      modifies this`settings
      ensures settings == incoming.(categoryIndex := SanitizeIndex(incoming.categoryIndex))
    {
      settings := incoming;
      if !IsNullOrEmpty(settings.categoryIndex) && TryParseInt32(settings.categoryIndex).None? {
        settings := settings.(categoryIndex := Some(""));
      }
    }
  }
}
