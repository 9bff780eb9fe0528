/**
 * `MainActivity`: the user's name (normalised when confirmed, shown in the
 * greeting, recovered from the greeting when a mode is chosen) and the
 * tap counter that unhides the test-chat button.
 */
module MainScreen {
  import opened Wrappers

  // ------------------------------------------------------------- trimming

  /**
   * Kotlin's `Char.isWhitespace()`: the Java whitespace controls plus every
   * Unicode space, line and paragraph separator (no-break spaces included).
   */
  predicate IsWhitespace(c: char)
  {
    ('\t' <= c <= '\r')                                   // tab, line feed, vertical tab, form feed, carriage return
    || ('\U{1C}' <= c <= ' ')                              // information separators and space
    || c == '\U{A0}' || c == '\U{1680}'
    || ('\U{2000}' <= c <= '\U{200A}')
    || c == '\U{2028}' || c == '\U{2029}' || c == '\U{202F}' || c == '\U{205F}' || c == '\U{3000}'
  }

  /** Starts and ends with a non-whitespace character, or is empty. */
  predicate IsTrimmed(s: string)
  {
    s == [] || (!IsWhitespace(s[0]) && !IsWhitespace(s[|s| - 1]))
  }

  /** The length of the leading run of whitespace in `s`. */
  function LeadingWhitespace(s: string): (n: nat)
    ensures n <= |s|
    ensures forall k :: 0 <= k < n ==> IsWhitespace(s[k])
    ensures n < |s| ==> !IsWhitespace(s[n])
  {
    if s == [] || !IsWhitespace(s[0]) then 0 else 1 + LeadingWhitespace(s[1..])
  }

  /** `s` with its trailing whitespace removed. */
  function TrimEnd(s: string): (r: string)
    ensures |r| <= |s| && r == s[..|r|]
    ensures r == [] || !IsWhitespace(r[|r| - 1])
    ensures forall k :: |r| <= k < |s| ==> IsWhitespace(s[k])
  {
    if s == [] || !IsWhitespace(s[|s| - 1]) then s else TrimEnd(s[..|s| - 1])
  }

  /**
   * Kotlin's `trim()`: what lies between the leading and the trailing run
   * of whitespace.
   */
  function Trim(s: string): (r: string)
    ensures IsTrimmed(r)
    ensures var i := LeadingWhitespace(s);
      i + |r| <= |s| && r == s[i..i + |r|] && forall k :: i + |r| <= k < |s| ==> IsWhitespace(s[k])
  {
    var i := LeadingWhitespace(s);
    var r := TrimEnd(s[i..]);
    assert forall k :: i + |r| <= k < |s| ==> s[k] == s[i..][k - i];
    r
  }

  /** Trimming a string with non-whitespace ends gives it back. */
  lemma TrimOfTrimmed(s: string)
    requires IsTrimmed(s)
    ensures Trim(s) == s
  {
  }

  /** `trim()` is idempotent. */
  lemma TrimIdempotent(s: string)
    ensures Trim(Trim(s)) == Trim(s)
  {
    TrimOfTrimmed(Trim(s));
  }

  // ---------------------------------------------------------------- names

  const DefaultUserName := "User"
  const GreetingPrefix := "Hello, "

  /** `text.trim().ifEmpty { "User" }`, the name the dialog's OK button stores. */
  function NormalizeName(input: string): (name: string)
    ensures name != [] && IsTrimmed(name)
    ensures Trim(input) != [] ==> name == Trim(input)
    ensures Trim(input) == [] ==> name == DefaultUserName
  {
    var t := Trim(input);
    if t == [] then DefaultUserName else t
  }

  /** `"Hello, $name!"`. */
  function Greeting(name: string): (g: string)
    ensures |g| == |GreetingPrefix| + |name| + 1
    ensures g[..|GreetingPrefix|] == GreetingPrefix && g[|g| - 1] == '!'
    ensures g[|GreetingPrefix|..|g| - 1] == name
  {
    GreetingPrefix + name + "!"
  }

  /** Kotlin's `removePrefix(prefix)`. */
  function RemovePrefix(s: string, prefix: string): (r: string)
    ensures |prefix| <= |s| && s[..|prefix|] == prefix ==> prefix + r == s
    ensures !(|prefix| <= |s| && s[..|prefix|] == prefix) ==> r == s
  {
    if |prefix| <= |s| && s[..|prefix|] == prefix then s[|prefix|..] else s
  }

  /** The name the mode buttons take from the greeting: `removePrefix("Hello, ").trim()`. */
  function ExtractName(greetingText: string): string
  {
    Trim(RemovePrefix(greetingText, GreetingPrefix))
  }

  /**
   * A mode button: the `userName` extra for the next screen, or None where
   * the "Enter your name" toast is shown instead.
   */
  function ModeUserName(greetingText: string): (r: Option<string>)
    ensures r.None? <==> ExtractName(greetingText) == []
    ensures r.Some? ==> r.value == ExtractName(greetingText)
  {
    var name := ExtractName(greetingText);
    if name == [] then None else Some(name)
  }

  /**
   * The greeting of a name that does not start with whitespace gives back
   * the name followed by "!", never empty: the exclamation mark travels
   * with the name to the peer.
   */
  lemma ExtractFromGreeting(name: string)
    requires name == [] || !IsWhitespace(name[0])
    ensures ExtractName(Greeting(name)) == name + "!"
    ensures ModeUserName(Greeting(name)) == Some(name + "!")
  {
    var g := Greeting(name);
    assert g[..|GreetingPrefix|] == GreetingPrefix;
    assert RemovePrefix(g, GreetingPrefix) == name + "!";
    TrimOfTrimmed(name + "!");
  }

  /** Every confirmed name reaches the host and client screens as that name plus "!". */
  lemma ConfirmedNameTravelsWithBang(input: string)
    ensures ModeUserName(Greeting(NormalizeName(input))) == Some(NormalizeName(input) + "!")
  {
    ExtractFromGreeting(NormalizeName(input));
  }

  /** `initUI()` prompts only when no name, or an empty one, is saved. */
  function ShouldPromptForName(saved: Option<string>): (r: bool)
    ensures r <==> saved == None || saved == Some([])
  {
    match saved
    case None => true
    case Some(name) => |name| == 0
  }

  // ------------------------------------------------------------ dev mode

  /** Greeting taps before the test-chat button appears. */
  const RevealTaps: int := 10

  datatype TapState = TapState(tapCount: int, devButtonVisible: bool)

  /** One tap on the greeting. */
  function TapStep(s: TapState): (t: TapState)
    ensures t.tapCount == s.tapCount + 1
    ensures s.devButtonVisible ==> t.devButtonVisible
    ensures t.devButtonVisible <==> s.devButtonVisible || t.tapCount >= RevealTaps
  {
    var count := s.tapCount + 1;
    TapState(count, s.devButtonVisible || count >= RevealTaps)
  }

  /** `k` taps in a row. */
  function Taps(s: TapState, k: nat): TapState
  {
    if k == 0 then s else TapStep(Taps(s, k - 1))
  }

  /** From a fresh screen, the button is visible exactly from the tenth tap on. */
  lemma {:induction false} RevealAtTenthTap(k: nat)
    ensures Taps(TapState(0, false), k).tapCount == k
    ensures Taps(TapState(0, false), k).devButtonVisible <==> k >= RevealTaps
  {
    if k > 0 {
      RevealAtTenthTap(k - 1);
    }
  }

  /** Once shown, the button stays: no number of further taps hides it. */
  lemma {:induction false} RevealIsPermanent(s: TapState, k: nat)
    requires s.devButtonVisible
    ensures Taps(s, k).devButtonVisible
  {
    if k > 0 {
      RevealIsPermanent(s, k - 1);
    }
  }

  class MainActivity {
    var savedName: Option<string>
    var greetingText: string
    var tapCount: int
    var devButtonVisible: bool
    var promptShown: bool

    /**
     * `onCreate` through `initUI()`: the saved name's greeting, or the
     * layout's own text and the name prompt; the test-chat button hidden.
     */
    constructor (saved: Option<string>, layoutGreeting: string)
      ensures savedName == saved && tapCount == 0 && !devButtonVisible
      ensures promptShown == ShouldPromptForName(saved)
      ensures greetingText == if promptShown then layoutGreeting else Greeting(saved.value)
    {
      savedName := saved;
      tapCount := 0;
      devButtonVisible := false;
      if saved == None || |saved.value| == 0 {
        promptShown := true;
        greetingText := layoutGreeting;
      } else {
        promptShown := false;
        greetingText := Greeting(saved.value);
      }
    }

    /** The name dialog's OK button. */
    method ConfirmName(input: string)
      modifies this
      ensures savedName == Some(NormalizeName(input))
      ensures greetingText == Greeting(NormalizeName(input))
      ensures tapCount == old(tapCount) && devButtonVisible == old(devButtonVisible)
      ensures promptShown == old(promptShown)
    {
      var name := Trim(input);
      if name == [] {
        name := DefaultUserName;
      }
      savedName := Some(name);
      greetingText := GreetingPrefix + name + "!";
    }

    /** A tap on the greeting. */
    method TapGreeting()
      modifies this
      ensures TapState(tapCount, devButtonVisible) == TapStep(TapState(old(tapCount), old(devButtonVisible)))
      ensures savedName == old(savedName) && greetingText == old(greetingText)
      ensures promptShown == old(promptShown)
    {
      tapCount := tapCount + 1;
      if tapCount >= RevealTaps {
        devButtonVisible := true;
      }
    }
  }
}
