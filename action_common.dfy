/** What the Stream Deck actions share: the key feedback, the image and title
    updates a tick produces, the sanitising of a numeric setting, push-to-play
    and the property inspector's refresh request. */
module ActionCommon {
  import opened Common
  import opened Manager

  /** `Connection.ShowOk` or `Connection.ShowAlert`. */
  datatype Feedback = ShowOk | ShowAlert

  /** `SetImageAsync(SoundPadNotRunning)`, or `SetImageAsync(null)`, which
      restores the action's own image. */
  datatype Image = NotRunningImage | DefaultImage

  /** No `SetTitleAsync` call, or one with the given text (None is null). */
  datatype TitleUpdate = KeepTitle | SetTitle(text: Option<string>)

  datatype TickOutput = TickOutput(image: Image, title: TitleUpdate)

  /** What `OnTick` shows while Soundpad is not connected. */
  const NotRunningTick: TickOutput := TickOutput(NotRunningImage, SetTitle(None))

  /** `ReceivedSettings`' repair of an index setting: a non-empty value that
      is not an Int32 is blanked, anything else is kept verbatim. */
  function SanitizeIndex(index: Option<string>): (r: Option<string>)
    ensures !IsNullOrEmpty(index) && TryParseInt32(index).None? ==> r == Some("")
    ensures IsNullOrEmpty(index) || TryParseInt32(index).Some? ==> r == index
  {
    if !IsNullOrEmpty(index) && TryParseInt32(index).None? then Some("") else index
  }

  /** After sanitising, an index setting is either empty or an Int32, and a
      second sanitising changes nothing. */
  lemma SanitizeIndexSettles(index: Option<string>)
    ensures IsNullOrEmpty(SanitizeIndex(index)) || TryParseInt32(SanitizeIndex(index)).Some?
    ensures SanitizeIndex(SanitizeIndex(index)) == SanitizeIndex(index)
  {
  }

  /** An index written by `Int32.ToString` survives sanitising. */
  lemma SanitizeKeepsIntegers(x: int)
    requires IsInt32(x)
    ensures SanitizeIndex(Some(IntToString(x))) == Some(IntToString(x))
  {
    IntToStringRoundTrip(x);
  }

  /** `KeyReleased`: `Stop` exactly when push-to-play is on. */
  function ReleaseEffects(pushToPlay: bool): (r: seq<Effect>)
    ensures StopSound in r <==> pushToPlay
    ensures |r| <= 1
  {
    if pushToPlay then [StopSound] else []
  }

  /** `ToLowerInvariant` on the ASCII letters. */
  function LowerChar(c: char): (r: char)
    ensures !('A' <= r <= 'Z')
  {
    if 'A' <= c <= 'Z' then (c as int + 32) as char else c
  }

  function ToLowerInvariant(s: string): (r: string)
    ensures |r| == |s|
    ensures forall i :: 0 <= i < |s| ==> r[i] == LowerChar(s[i])
  {
    if s == [] then [] else [LowerChar(s[0])] + ToLowerInvariant(s[1..])
  }

  /** `Connection_OnSendToPlugin`: the property inspector's message asks for a
      catalog refresh when, lower-cased, it equals `expected`. */
  function RequestsRefresh(message: string, expected: string): bool
  {
    ToLowerInvariant(message) == expected
  }

  /** A message whose letters lower-case one by one to `expected` asks for
      the refresh. */
  lemma LowerCaseMatch(message: string, expected: string)
    requires |message| == |expected|
    requires forall i :: 0 <= i < |message| ==> LowerChar(message[i]) == expected[i]
    ensures RequestsRefresh(message, expected)
  {
  }
}
