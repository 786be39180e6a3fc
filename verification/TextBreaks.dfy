/** What both chunkers of streamed text call a break. */
module TextBreaks {
  datatype Break = Paragraph | Newline | Sentence | Whitespace

  /** The full stop, exclamation and question marks, and their wide forms. */
  predicate EndsSentence(c: char) {
    c == '.' || c == '!' || c == '?' || c as int == 0x3002 || c as int == 0xff01 || c as int == 0xff1f
  }
}
