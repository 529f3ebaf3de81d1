/** The key-down policy of the question field. */
module KeyPolicy {

  /** What a key press in the question field leads to: `Submit` runs the
      submit handler (which itself suppresses the browser's default),
      `Suppress` only prevents the default (no newline is inserted), and
      `Default` lets the browser handle the key (Shift+Enter inserts a
      newline). */
  datatype KeyAction = Submit | Suppress | Default

  /** The decision of the key-down handler for a key named `key`, with the
      Shift modifier `shift`, when the field holds `userInput`. An input
      counts as present when it is not the empty string, even if it is
      blank. */
  function HandleEnter(key: string, shift: bool, userInput: string): (a: KeyAction)
    ensures a == Submit <==> key == "Enter" && !shift && userInput != ""
    ensures a == Suppress <==> key == "Enter" && userInput == ""
    ensures a == Default <==> key != "Enter" || (shift && userInput != "")
  {
    if key == "Enter" && userInput != "" then
      if !shift && userInput != "" then Submit else Default
    else if key == "Enter" then
      Suppress
    else
      Default
  }

  /** Whether the browser's default action for the key is prevented. */
  predicate PreventsDefault(a: KeyAction) {
    a != Default
  }
}
