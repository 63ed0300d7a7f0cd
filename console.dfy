/** The question filter both chat clients apply to each line typed at the
    `You:` prompt: the line is stripped, an empty line is ignored, `quit`,
    `exit` or `q` in any letter case ends the loop, and anything else is a
    question. End of input (EOF) ends the loop as well; a run of the loop is
    modelled by the finite sequence of lines typed before it. */
module Console {
  import opened Text

  const QuitWords: set<string> := {"quit", "exit", "q"}

  /** What one typed line means to the loop. */
  datatype Entry = Blank | Quit | Ask(question: string)

  function Classify(line: string): (e: Entry)
    ensures e.Blank? <==> Strip(line) == []
    ensures e.Quit? <==> Lower(Strip(line)) in QuitWords
    ensures e.Ask? ==> e.question == Strip(line) && e.question != [] && Lower(e.question) !in QuitWords
  {
    var q := Strip(line);
    assert q == [] ==> Lower(q) == [];
    if q == [] then Blank
    else if Lower(q) in QuitWords then Quit
    else Ask(q)
  }

  /** A question, once stripped, is classified as the same question again. */
  lemma ClassifyQuestion(line: string)
    requires Classify(line).Ask?
    ensures Classify(Classify(line).question) == Classify(line)
  {
    StripIdempotent(line);
  }

  /** What each typed line means. */
  function Entries(lines: seq<string>): (es: seq<Entry>)
    ensures |es| == |lines| && forall i :: 0 <= i < |lines| ==> es[i] == Classify(lines[i])
  {
    seq(|lines|, i requires 0 <= i < |lines| => Classify(lines[i]))
  }

  /** Some entry of `es` ends the loop. */
  predicate Stopped(es: seq<Entry>)
  {
    es != [] && (Stopped(es[..|es| - 1]) || es[|es| - 1].Quit?)
  }

  /** The questions asked while the entries `es` are read, in order. */
  function Questions(es: seq<Entry>): (qs: seq<string>)
    ensures |qs| <= |es|
  {
    if es == [] then []
    else
      var before := Questions(es[..|es| - 1]);
      if Stopped(es[..|es| - 1]) then before
      else
        match es[|es| - 1]
        case Ask(q) => before + [q]
        case _ => before
  }

  /** The questions handed to the agent while `lines` are typed. */
  function Asked(lines: seq<string>): seq<string>
  {
    Questions(Entries(lines))
  }

  /** One more entry read while the loop is running: a question is
      appended, a quit word stops the loop, and a blank line changes
      nothing. */
  lemma QuestionsStep(es: seq<Entry>, i: nat)
    requires i < |es| && !Stopped(es[..i])
    ensures Stopped(es[..i + 1]) <==> es[i].Quit?
    ensures es[i].Ask? ==> Questions(es[..i + 1]) == Questions(es[..i]) + [es[i].question]
    ensures !es[i].Ask? ==> Questions(es[..i + 1]) == Questions(es[..i])
  {
    assert es[..i + 1][..i] == es[..i];
  }

  lemma {:induction false} StoppedExtends(es: seq<Entry>, n: nat)
    requires n <= |es| && Stopped(es[..n])
    ensures Stopped(es)
    decreases |es| - n
  {
    if n < |es| {
      var init := es[..|es| - 1];
      assert init[..n] == es[..n];
      StoppedExtends(init, n);
    } else {
      assert es[..n] == es;
    }
  }

  /** Nothing read after the quitting entry reaches the agent. */
  lemma {:induction false} QuestionsAfterQuit(es: seq<Entry>, n: nat)
    requires n <= |es| && Stopped(es[..n])
    ensures Questions(es) == Questions(es[..n])
    decreases |es| - n
  {
    if n < |es| {
      var init := es[..|es| - 1];
      assert init[..n] == es[..n];
      StoppedExtends(init, n);
      QuestionsAfterQuit(init, n);
    } else {
      assert es[..n] == es;
    }
  }

  /** One turn of a read loop: the line at position `i` is read and
      classified. A quit word ends the loop with every question already
      asked; otherwise the loop goes on, with the question appended when
      there is one. */
  method ReadEntry(lines: seq<string>, i: nat, ghost es: seq<Entry>) returns (entry: Entry)
    requires es == Entries(lines) && i < |lines| && !Stopped(es[..i])
    ensures entry == es[i]
    ensures entry.Quit? ==> Questions(es) == Questions(es[..i])
    ensures !entry.Quit? ==> !Stopped(es[..i + 1])
    ensures entry.Ask? ==> Questions(es[..i + 1]) == Questions(es[..i]) + [entry.question]
    ensures entry.Blank? ==> Questions(es[..i + 1]) == Questions(es[..i])
  {
    QuestionsStep(es, i);
    entry := Classify(lines[i]);
    if entry.Quit? {
      QuestionsAfterQuit(es, i + 1);
    }
  }

  /** Every question handed to the agent is stripped, non-empty and not a
      quit word. */
  lemma AskedQuestions(lines: seq<string>)
    ensures var qs := Asked(lines);
            forall i :: 0 <= i < |qs| ==> qs[i] != [] && Strip(qs[i]) == qs[i] && Lower(qs[i]) !in QuitWords
  {
    var es := Entries(lines);
    forall i | 0 <= i < |lines| && es[i].Ask?
      ensures WellFormed(es[i].question)
    {
      StripIdempotent(lines[i]);
    }
    QuestionsWellFormed(es);
  }

  /** A question as the loop hands it on. */
  predicate WellFormed(q: string)
  {
    q != [] && Strip(q) == q && Lower(q) !in QuitWords
  }

  lemma {:induction false} QuestionsWellFormed(es: seq<Entry>)
    requires forall i :: 0 <= i < |es| && es[i].Ask? ==> WellFormed(es[i].question)
    ensures forall i :: 0 <= i < |Questions(es)| ==> WellFormed(Questions(es)[i])
  {
    if es != [] {
      var init := es[..|es| - 1];
      assert forall i :: 0 <= i < |init| ==> init[i] == es[i];
      QuestionsWellFormed(init);
    }
  }

  /** A question, a blank line and a quit word: only the question is asked,
      whatever entries follow. */
  lemma AskBlankQuit(es: seq<Entry>, q: string)
    requires |es| >= 3 && es[0] == Ask(q) && es[1] == Blank && es[2] == Quit
    ensures Questions(es) == [q]
  {
    QuestionsStep(es, 0);
    assert es[..0] == [];
    QuestionsStep(es, 1);
    QuestionsStep(es, 2);
    QuestionsAfterQuit(es, 3);
  }

  /** A question, a blank line and a quit word, followed by anything: only
      the stripped question is asked. */
  lemma QuitEndsLoop(lines: seq<string>)
    requires |lines| >= 3 && Classify(lines[0]).Ask?
    requires Strip(lines[1]) == [] && Lower(Strip(lines[2])) in QuitWords
    ensures Asked(lines) == [Strip(lines[0])]
  {
    var es := Entries(lines);
    assert es[1] == Blank && es[2] == Quit;
    AskBlankQuit(es, Strip(lines[0]));
  }
}
