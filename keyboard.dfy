/**
 * The player's keyboard shortcuts: the document-wide `keydown` listener maps
 * the tag of the focused element and the pressed key to at most one command.
 * Both the tag and the key are lower-cased before they are compared.
 */
module Keyboard {
  import opened Options

  datatype Command =
    | TogglePlay
    | ToggleFullScreen
    | ToggleTheater
    | ToggleMiniPlayer
    | ToggleMute
    | Skip(seconds: int)
    | ToggleCaptions

  /** Lower-casing of one character (the ASCII letters). */
  function LowerChar(c: char): (l: char)
    ensures !('A' <= l <= 'Z')
    ensures 'A' <= c <= 'Z' ==> 'a' <= l <= 'z'
    ensures !('A' <= c <= 'Z') ==> l == c
  {
    if 'A' <= c <= 'Z' then (c as int + 32) as char else c
  }

  /** The ASCII alphabet in both cases, letter by letter. */
  const UpperLetters := "ABCDEFGHIJKLMNOPQRSTUVWXYZ"
  const LowerLetters := "abcdefghijklmnopqrstuvwxyz"

  /** Each capital letter lower-cases to the small letter at the same place in the alphabet. */
  lemma LowerCharPairsLetters()
    ensures forall i :: 0 <= i < |UpperLetters| ==> LowerChar(UpperLetters[i]) == LowerLetters[i]
  {
    forall i | 0 <= i < |UpperLetters|
      ensures LowerChar(UpperLetters[i]) == LowerLetters[i]
    {
      assert UpperLetters[i] as int == 'A' as int + i;
      assert LowerLetters[i] as int == 'a' as int + i;
    }
  }

  /** Lower-casing of a string, character by character. */
  function Lower(s: string): (r: string)
    ensures |r| == |s|
    ensures forall i :: 0 <= i < |s| ==> r[i] == LowerChar(s[i])
  {
    if |s| == 0 then [] else [LowerChar(s[0])] + Lower(s[1..])
  }

  /**
   * The listener's decision. Focus on an `input` swallows every key; a space
   * on a focused `button` is left to the button; otherwise the space falls
   * through to the `k` case.
   */
  function Dispatch(tag: string, key: string): Option<Command>
  {
    var tagName := Lower(tag);
    if tagName == "input" then None
    else
      var k := Lower(key);
      if k == " " && tagName == "button" then None
      else if k == " " || k == "k" then Some(TogglePlay)
      else if k == "f" then Some(ToggleFullScreen)
      else if k == "t" then Some(ToggleTheater)
      else if k == "i" then Some(ToggleMiniPlayer)
      else if k == "m" then Some(ToggleMute)
      else if k == "arrowleft" || k == "j" then Some(Skip(-5))
      else if k == "arrowright" || k == "l" then Some(Skip(5))
      else if k == "c" then Some(ToggleCaptions)
      else None
  }

  /** The shortcuts as a table from lower-case key names to commands. */
  const Bindings: map<string, Command> := map[
    " " := TogglePlay, "k" := TogglePlay,
    "f" := ToggleFullScreen,
    "t" := ToggleTheater,
    "i" := ToggleMiniPlayer,
    "m" := ToggleMute,
    "arrowleft" := Skip(-5), "j" := Skip(-5),
    "arrowright" := Skip(5), "l" := Skip(5),
    "c" := ToggleCaptions
  ]

  /** Lower-casing twice is lower-casing once. */
  lemma {:induction false} LowerIdempotent(s: string)
    ensures Lower(Lower(s)) == Lower(s)
  {
    if |s| > 0 {
      LowerIdempotent(s[1..]);
      assert Lower(s)[1..] == Lower(s[1..]);
    }
  }

  /**
   * The listener agrees with the table: nothing when an `input` has focus or
   * when a space reaches a focused `button`, the bound command for a bound
   * key, and nothing for any other key.
   */
  lemma DispatchMatchesBindings(tag: string, key: string)
    ensures Dispatch(tag, key) ==
      if Lower(tag) == "input" || (Lower(key) == " " && Lower(tag) == "button") then None
      else if Lower(key) in Bindings then Some(Bindings[Lower(key)])
      else None
  {
  }

  /** Keys are matched without regard to case. */
  lemma KeyCaseIgnored(tag: string, key: string)
    ensures Dispatch(tag, key) == Dispatch(tag, Lower(key))
  {
    LowerIdempotent(key);
  }

  /** So are tag names. */
  lemma TagCaseIgnored(tag: string, key: string)
    ensures Dispatch(tag, key) == Dispatch(Lower(tag), key)
  {
    LowerIdempotent(tag);
  }

  /** Apart from a focused `input` or `button`, a space plays or pauses. */
  lemma SpaceFallsThrough(tag: string)
    requires Lower(tag) != "input" && Lower(tag) != "button"
    ensures Dispatch(tag, " ") == Some(TogglePlay)
  {
    assert Lower(" ") == " ";
  }

  /** Pressing `k` while a text field has focus does not toggle playback. */
  lemma TypingInInputIgnored()
    ensures Dispatch("INPUT", "k") == None
  {
    assert Lower("INPUT") == "input";
  }

  /** An upper-case `K` toggles playback like `k`. */
  lemma UpperCaseShortcut()
    ensures Dispatch("BODY", "K") == Some(TogglePlay)
  {
    assert Lower("BODY") == "body";
    assert Lower("K") == "k";
  }

  /** The space bar on a focused button is left to the button. */
  lemma SpaceOnButtonIgnored()
    ensures Dispatch("BUTTON", " ") == None
    ensures Dispatch("DIV", " ") == Some(TogglePlay)
  {
    assert Lower("BUTTON") == "button";
    assert Lower("DIV") == "div";
    assert Lower(" ") == " ";
  }
}
