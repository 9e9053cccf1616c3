/** One iteration of the `while True` loop in `main`, as a pure function of what the
    clipboard and the translator answered during that iteration. */
module Loop {
  import opened Wrappers

  /** The normal wait between polls, in units of the poll interval. */
  const NormalSleep: nat := 1

  /** The wait after a failed clipboard read, in units of the poll interval. */
  const BackoffSleep: nat := 5

  /** What `pyperclip.paste()` did. */
  datatype Read = Pasted(text: string) | PasteFailed

  /** What `pyperclip.copy(...)` did. */
  datatype Write = Copied | CopyFailed

  /** The effect of one iteration: the new last-observed text, the text handed to the
      translator (if a translation was requested), the text put on the clipboard (if a
      write succeeded), and the sleep that ends the iteration. */
  datatype Outcome = Outcome(last: string, source: Option<string>, written: Option<string>, sleep: nat)

  /** The clipboard holds text worth translating: different from what was last observed,
      and not empty. */
  predicate IsNew(last: string, current: string) {
    current != last && current != ""
  }

  /** A translation the loop accepts: present and non-empty (Python truthiness). */
  predicate Usable(translation: Option<string>) {
    translation.Some? && translation.value != ""
  }

  /** What the clipboard holds after the iteration, given what it held when read: the
      written text if a write succeeded, otherwise unchanged. */
  function ClipboardAfter(current: string, o: Outcome): string {
    o.written.GetOr(current)
  }

  /** One iteration. `translation` is what the translator returns for the text read, and
      `write` what the clipboard does with the write; each is consulted only when the
      iteration gets that far. */
  function Step(last: string, read: Read, translation: Option<string>, write: Write): (o: Outcome)
    ensures o.sleep == (if read.PasteFailed? then BackoffSleep else NormalSleep)
    ensures o.source.Some? <==> read.Pasted? && IsNew(last, read.text)
    ensures o.source.Some? ==> o.source.value == read.text
    ensures o.source.None? ==> o.last == last && o.written.None?
    ensures o.written.Some? <==> o.source.Some? && Usable(translation) && write.Copied?
    ensures o.written.Some? ==> Some(o.written.value) == translation
    ensures o.source.Some? ==> o.last == ClipboardAfter(read.text, o)
    ensures o.source.Some? && o.written.None? ==> o.last == read.text
  {
    match read
    case PasteFailed => Outcome(last, None, None, BackoffSleep)
    case Pasted(current) =>
      if !IsNew(last, current) then
        Outcome(last, None, None, NormalSleep)
      else if !Usable(translation) then
        Outcome(current, Some(current), None, NormalSleep)
      else
        match write
        case Copied => Outcome(translation.value, Some(current), Some(translation.value), NormalSleep)
        case CopyFailed => Outcome(current, Some(current), None, NormalSleep)
  }

  /** A failed read requests nothing, keeps the last-observed text and backs off five-fold. */
  lemma ReadFailureBacksOff(last: string, translation: Option<string>, write: Write)
    ensures Step(last, PasteFailed, translation, write) == Outcome(last, None, None, BackoffSleep)
  {
  }

  /** Unchanged or empty clipboard text requests nothing, writes nothing, keeps the last-observed text. */
  lemma UnchangedIsIgnored(last: string, current: string, translation: Option<string>, write: Write)
    requires current == last || current == ""
    ensures Step(last, Pasted(current), translation, write) == Outcome(last, None, None, NormalSleep)
  {
  }

  /** A usable translation that is written successfully ends up on the clipboard and becomes the last-observed text. */
  lemma TranslatedAndCopied(last: string, current: string, t: string)
    requires IsNew(last, current) && t != ""
    ensures Step(last, Pasted(current), Some(t), Copied) == Outcome(t, Some(current), Some(t), NormalSleep)
  {
  }

  /** A usable translation whose write fails leaves the source as the last-observed text. */
  lemma CopyFailureKeepsSource(last: string, current: string, t: string)
    requires IsNew(last, current) && t != ""
    ensures Step(last, Pasted(current), Some(t), CopyFailed) == Outcome(current, Some(current), None, NormalSleep)
  {
  }

  /** A missing or empty translation writes nothing and leaves the source as the last-observed text. */
  lemma TranslationFailureKeepsSource(last: string, current: string, translation: Option<string>, write: Write)
    requires IsNew(last, current) && !Usable(translation)
    ensures Step(last, Pasted(current), translation, write) == Outcome(current, Some(current), None, NormalSleep)
  {
  }

  /** After an iteration that reacted to new text, polling the clipboard it left behind
      requests nothing, whatever the translator and clipboard would do next. */
  lemma NoRetranslation(last: string, current: string, translation: Option<string>, write: Write,
                        translation': Option<string>, write': Write)
    requires IsNew(last, current)
    ensures var o := Step(last, Pasted(current), translation, write);
            Step(o.last, Pasted(ClipboardAfter(current, o)), translation', write').source.None?
  {
  }
}
