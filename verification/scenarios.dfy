/** Whole-program runs from start-up, with the translator's answer computed from a reply body. */
module Scenarios {
  import opened Wrappers
  import opened PyJson
  import Gemini
  import opened Loop
  import opened Session

  const Greeting: string := "Hello"
  const Fresh: string := "World"
  const Answer: string := "世界"

  /** A reply carrying `text` as its only candidate's only part. */
  function ReplyWith(text: string): Json {
    Obj(map["candidates" := Arr([Obj(map["content" := Obj(map["parts" := Arr([Obj(map["text" := Str(text)])])])])])])
  }

  /** A reply carrying already-trimmed text yields exactly that text. */
  lemma ReplyWithYields(text: string)
    requires Text.Trimmed(text)
    ensures Gemini.Decode(ReplyWith(text)) == Some(text)
  {
    var parts := Arr([Obj(map["text" := Str(text)])]);
    var candidates := Arr([Obj(map["content" := Obj(map["parts" := parts])])]);
    PartsShape(text);
    CandidatesShape(parts);
    ReplyShape(candidates);
    Text.StripTrimmed(text);
  }

  lemma PartsShape(text: string)
    ensures Gemini.ExpectedFromParts(Arr([Obj(map["text" := Str(text)])])) == Some(Text.Strip(text))
  {
  }

  lemma CandidatesShape(parts: Json)
    ensures Gemini.ExpectedFromCandidates(Arr([Obj(map["content" := Obj(map["parts" := parts])])]))
            == Gemini.ExpectedFromParts(parts)
  {
  }

  lemma ReplyShape(candidates: Json)
    ensures Gemini.Expected(Obj(map["candidates" := candidates])) == Gemini.ExpectedFromCandidates(candidates)
  {
  }

  /** A reply refused on policy grounds. */
  const SafetyBlock: Json := Obj(map["promptFeedback" := Obj(map["blockReason" := Str("SAFETY")])])

  /** Start-up with "Hello" translates nothing; copying "World" translates it once, the answer
      replaces it on the clipboard, and the next poll leaves everything alone. */
  lemma HelloWorld(key: string)
    requires Gemini.KeyConfigured(key)
    ensures var translation := Gemini.Translate(key, Fresh, Some(ReplyWith(Answer))).result;
            var evs := [Poll(false, None, Copied), UserCopy(Fresh), Poll(false, translation, Copied),
                        Poll(false, None, Copied)];
            Sources(Start(Greeting), evs) == [Fresh] && Run(Start(Greeting), evs) == Session.World(Answer, Answer)
  {
    ReplyWithYields(Answer);
    assert Gemini.Translate(key, Fresh, Some(ReplyWith(Answer))).result == Some(Answer);
    HelloWorldRun(Gemini.Translate(key, Fresh, Some(ReplyWith(Answer))).result);
  }

  lemma HelloWorldRun(translation: Option<string>)
    requires translation == Some(Answer)
    ensures var evs := [Poll(false, None, Copied), UserCopy(Fresh), Poll(false, translation, Copied),
                        Poll(false, None, Copied)];
            Sources(Start(Greeting), evs) == [Fresh] && Run(Start(Greeting), evs) == Session.World(Answer, Answer)
  {
    var e0, e1, e2, e3 := Poll(false, None, Copied), UserCopy(Fresh), Poll(false, translation, Copied),
                          Poll(false, None, Copied);
    var w0 := Start(Greeting);
    var w1 := Session.World(Greeting, Greeting);
    var w2 := Session.World(Fresh, Greeting);
    var w3 := Session.World(Answer, Answer);
    assert Next(w0, e0) == w1 && Requested(w0, e0) == [];
    assert Next(w1, e1) == w2 && Requested(w1, e1) == [];
    assert Next(w2, e2) == w3 && Requested(w2, e2) == [Fresh];
    assert Next(w3, e3) == w3 && Requested(w3, e3) == [];
    Unfold(w3, e3, []);
    Unfold(w2, e2, [e3]);
    Unfold(w1, e1, [e2, e3]);
    Unfold(w0, e0, [e1, e2, e3]);
    assert [e0, e1, e2, e3] == [e0] + [e1, e2, e3];
    assert [e1, e2, e3] == [e1] + [e2, e3];
    assert [e2, e3] == [e2] + [e3];
    assert [e3] == [e3] + [];
  }

  /** Copying the empty string requests nothing and keeps the last-observed text. */
  lemma EmptyCopyIgnored(translation: Option<string>, write: Write)
    ensures var evs := [UserCopy(""), Poll(false, translation, write)];
            Sources(Start(Greeting), evs) == [] && Run(Start(Greeting), evs) == Session.World("", Greeting)
  {
    var e0, e1 := UserCopy(""), Poll(false, translation, write);
    var w1 := Session.World("", Greeting);
    assert Next(Start(Greeting), e0) == w1 && Next(w1, e1) == w1;
    Unfold(w1, e1, []);
    Unfold(Start(Greeting), e0, [e1]);
    assert [e0, e1] == [e0] + [e1];
    assert [e1] == [e1] + [];
  }

  /** A block reply leaves the source on the clipboard and records it as observed, so the
      next poll requests nothing. */
  lemma BlockedLeavesSource(key: string, write: Write, translation': Option<string>)
    requires Gemini.KeyConfigured(key)
    ensures var translation := Gemini.Translate(key, Fresh, Some(SafetyBlock)).result;
            var evs := [UserCopy(Fresh), Poll(false, translation, write), Poll(false, translation', write)];
            Sources(Start(Greeting), evs) == [Fresh] && Run(Start(Greeting), evs) == Session.World(Fresh, Fresh)
  {
    SafetyBlockYieldsNothing(key);
    BlockedRun(Gemini.Translate(key, Fresh, Some(SafetyBlock)).result, write, translation');
  }

  lemma SafetyBlockYieldsNothing(key: string)
    ensures Gemini.Translate(key, Fresh, Some(SafetyBlock)).result == None
  {
    Gemini.BlockReplyYieldsNothing(SafetyBlock.fields, SafetyBlock.fields["promptFeedback"].fields);
  }

  lemma BlockedRun(translation: Option<string>, write: Write, translation': Option<string>)
    requires translation == None
    ensures var evs := [UserCopy(Fresh), Poll(false, translation, write), Poll(false, translation', write)];
            Sources(Start(Greeting), evs) == [Fresh] && Run(Start(Greeting), evs) == Session.World(Fresh, Fresh)
  {
    var e0, e1, e2 := UserCopy(Fresh), Poll(false, translation, write), Poll(false, translation', write);
    var w1 := Session.World(Fresh, Greeting);
    var w2 := Session.World(Fresh, Fresh);
    assert Next(Start(Greeting), e0) == w1 && Requested(Start(Greeting), e0) == [];
    assert Next(w1, e1) == w2 && Requested(w1, e1) == [Fresh];
    assert Next(w2, e2) == w2 && Requested(w2, e2) == [];
    Unfold(w2, e2, []);
    Unfold(w1, e1, [e2]);
    Unfold(Start(Greeting), e0, [e1, e2]);
    assert [e0, e1, e2] == [e0] + [e1, e2];
    assert [e1, e2] == [e1] + [e2];
    assert [e2] == [e2] + [];
  }

  /** A failed read waits five intervals and requests nothing; the next successful read
      behaves normally. */
  lemma ReadFailureThenRecovery(translation: Option<string>, write: Write)
    ensures var w := Session.World(Fresh, Greeting);
            PollStep(w, Poll(true, translation, write)) == Outcome(Greeting, None, None, BackoffSleep)
            && Next(w, Poll(true, translation, write)) == w
            && PollStep(w, Poll(false, translation, write)).source == Some(Fresh)
  {
  }

  /** Copying a text again after its translation replaced it on the clipboard translates it
      again: the last-observed text is then the translation, not the source. */
  lemma RecopyIsTranslatedAgain(t: string)
    requires t != "" && t != Fresh
    ensures var evs := [UserCopy(Fresh), Poll(false, Some(t), Copied), UserCopy(Fresh), Poll(false, Some(t), Copied)];
            Sources(Start(Greeting), evs) == [Fresh, Fresh]
  {
    var e0, e1 := UserCopy(Fresh), Poll(false, Some(t), Copied);
    var w0 := Start(Greeting);
    var w1 := Session.World(Fresh, Greeting);
    var w2 := Session.World(t, t);
    var w3 := Session.World(Fresh, t);
    assert Next(w0, e0) == w1 && Requested(w0, e0) == [];
    assert Next(w1, e1) == w2 && Requested(w1, e1) == [Fresh];
    assert Next(w2, e0) == w3 && Requested(w2, e0) == [];
    assert Next(w3, e1) == w2 && Requested(w3, e1) == [Fresh];
    Unfold(w3, e1, []);
    Unfold(w2, e0, [e1]);
    Unfold(w1, e1, [e0, e1]);
    Unfold(w0, e0, [e1, e0, e1]);
    assert [e0, e1, e0, e1] == [e0] + [e1, e0, e1];
    assert [e1, e0, e1] == [e1] + [e0, e1];
    assert [e0, e1] == [e0] + [e1];
    assert [e1] == [e1] + [];
  }
}
