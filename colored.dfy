/**
 * The console colouring of a line of server output: the first of three
 * prefixes picks the colour, everything is bold, and the text itself is kept.
 * The terminal escape sequences are represented by the style they select.
 */
module Colored {
  import opened Text

  datatype Colour = White | Yellow | Red | Blue

  /** A text and the style the console shows it in. */
  datatype Styled = Styled(colour: Colour, bold: bool, text: string)

  const PromptPrefix: string := ">"
  const WarningPrefix: string := "WARNING:"
  const ErrorPrefix: string := "ERROR:"

  /** `colored`: the prefixes are tried in order and the first that matches
      decides the colour; a line with none of them is blue. */
  function Colored(text: string): (r: Styled)
    ensures r.text == text && r.bold
    ensures StartsWith(text, PromptPrefix) ==> r.colour == White
    ensures !StartsWith(text, PromptPrefix) && StartsWith(text, WarningPrefix) ==> r.colour == Yellow
    ensures !StartsWith(text, PromptPrefix) && !StartsWith(text, WarningPrefix) && StartsWith(text, ErrorPrefix) ==> r.colour == Red
    ensures !StartsWith(text, PromptPrefix) && !StartsWith(text, WarningPrefix) && !StartsWith(text, ErrorPrefix) ==> r.colour == Blue
  {
    if StartsWith(text, PromptPrefix) then Styled(White, true, text)
    else if StartsWith(text, WarningPrefix) then Styled(Yellow, true, text)
    else if StartsWith(text, ErrorPrefix) then Styled(Red, true, text)
    else Styled(Blue, true, text)
  }

  /** No text starts with two of the prefixes, so the order of the tests does
      not matter: each colour is chosen exactly when its own prefix is there. */
  lemma ColourOfPrefix(text: string)
    ensures Colored(text).colour == White <==> StartsWith(text, PromptPrefix)
    ensures Colored(text).colour == Yellow <==> StartsWith(text, WarningPrefix)
    ensures Colored(text).colour == Red <==> StartsWith(text, ErrorPrefix)
    ensures Colored(text).colour == Blue <==>
      !StartsWith(text, PromptPrefix) && !StartsWith(text, WarningPrefix) && !StartsWith(text, ErrorPrefix)
  {
    if StartsWith(text, WarningPrefix) {
      assert text[0] == 'W';
    } else if StartsWith(text, ErrorPrefix) {
      assert text[0] == 'E';
    }
  }
}
