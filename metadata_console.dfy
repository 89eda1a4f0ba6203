/** `MetadataKeyValuesFromConsole` of
    BoxCLI/Commands/MetadataSubCommands/MetadataSubCommandBase.cs: the
    interactive builder of a metadata dictionary. The console input is a
    given sequence of lines; `Console.ReadLine` past its end returns null. */
module MetadataConsole {
  import opened Wrappers
  import opened Strings
  import opened Decimals
  import opened CommandBase
  import opened MetadataValues

  const KeyPrompt: string := "Enter the metadata key:"
  const ValuePrompt: string := "Enter the metadata value:"
  const FloatPrompt: string := "Is metadata value a float? y/N"
  const ContinuePrompt: string := "Enter to continue, q to quit."
  const CurrentHeading: string := "Current metadata object:"
  const Finished: string := "Finished building metadata."

  /** `Console.ReadLine` at position `pos` of the input. */
  function ReadLine(lines: seq<string>, pos: nat): (r: Option<string>)
    ensures r.Some? <==> pos < |lines|
    ensures pos < |lines| ==> r.value == lines[pos]
  {
    if pos < |lines| then Some(lines[pos]) else None
  }

  /** How a value appears in string interpolation (invariant culture). */
  function Render(v: Value): string {
    match v
    case Text(s) => s
    case Number(d) => Format(d)
    case Null => ""
  }

  /** The line that shows one entry. */
  function KeyLine(e: Entry): Emit<Entry> {
    Info("Key: " + e.key + " - Value: " + Render(e.value))
  }

  /** One information line per entry of the current dictionary, in order. */
  function Listing(md: seq<Entry>): (r: seq<Emit<Entry>>)
    ensures |r| == |md|
    ensures forall i :: 0 <= i < |md| ==> r[i] == KeyLine(md[i])
  {
    if |md| == 0 then [] else Listing(md[..|md| - 1]) + [KeyLine(md[|md| - 1])]
  }

  /** What a round shows before its prompts: nothing for an empty dictionary. */
  function Current(md: seq<Entry>): seq<Emit<Entry>> {
    if |md| > 0 then [Info(CurrentHeading)] + Listing(md) else []
  }

  /** What a round shows up to its first read. */
  function Asked(md: seq<Entry>): seq<Emit<Entry>> {
    Current(md) + [Info(KeyPrompt), Info(ValuePrompt), Info(FloatPrompt)]
  }

  /** `md.Add(key, ...)` with a key that may be null. */
  function AddKey(md: seq<Entry>, key: Option<string>, v: Value): (r: Outcome<seq<Entry>>)
    ensures key.None? ==> r == Err(NullKey)
    ensures key.Some? ==> r == Add(md, key.value, v)
  {
    match key
    case None => Err(NullKey)
    case Some(k) => Add(md, k, v)
  }

  /** The dictionary after one round's answers: the value is parsed as a
      decimal only when the float answer is exactly "y". */
  function RoundAdd(md: seq<Entry>, key: Option<string>, val: Option<string>, yesNo: Option<string>): Outcome<seq<Entry>> {
    if yesNo == Some("y") then
      match val {
        case None => Err(NullNumber)
        case Some(v) =>
          match Parse(v) {
            case Err(m) => Err(m)
            case Ok(d) => AddKey(md, key, Number(d))
          }
      }
    else AddKey(md, key, if val.Some? then Text(val.value) else Null)
  }

  /** The continue answer that ends the builder: one character that
      lower-cases to 'q'. */
  predicate Quits(answer: string) {
    |answer| == 1 && LowerChar(answer[0]) == 'q'
  }

  /** `Quits` is the test `answer.ToLower() == "q"`. */
  lemma QuitsIsLowerQ(answer: string)
    ensures Quits(answer) <==> Lower(answer) == "q"
  {
    if Lower(answer) == "q" {
      assert LowerChar(answer[0]) == Lower(answer)[0];
    }
  }

  /** A run of the builder: the lines it wrote and the dictionary or the
      exception it ended with. */
  datatype Session = Session(events: seq<Emit<Entry>>, result: Outcome<seq<Entry>>)

  /** How one round ends: the builder stops (finished or failed), or it
      goes on with the grown dictionary. */
  datatype Turn =
    | Stop(events: seq<Emit<Entry>>, result: Outcome<seq<Entry>>)
    | Next(events: seq<Emit<Entry>>, md: seq<Entry>)

  /** The step that turns a round's three answers into the next
      dictionary; the builder uses `RoundAdd`. The round structure below
      is stated for any such step. */
  type Adder = (seq<Entry>, Option<string>, Option<string>, Option<string>) -> Outcome<seq<Entry>>

  /** One round from input position `pos`: it reads four lines (key,
      value, float answer, continue answer). */
  function Round(lines: seq<string>, pos: nat, md: seq<Entry>, add: Adder): (t: Turn)
    ensures t.Next? ==> pos + 3 < |lines| && !Quits(lines[pos + 3])
    ensures t.Stop? && t.result.Ok? ==> pos + 3 < |lines| && Quits(lines[pos + 3])
  {
    var added := add(md, ReadLine(lines, pos), ReadLine(lines, pos + 1), ReadLine(lines, pos + 2));
    var answer := ReadLine(lines, pos + 3);
    if added.Err? then Stop(Asked(md), Err(added.msg))
    else if answer.None? then Stop(Asked(md) + [Info(ContinuePrompt)], Err(NullReference))
    else if Quits(answer.value) then Stop(Asked(md) + [Info(ContinuePrompt), Success(Finished)], Ok(added.value))
    else Next(Asked(md) + [Info(ContinuePrompt)], added.value)
  }

  /** The rounds from input position `pos` on, with dictionary `md` so far. */
  function Rounds(lines: seq<string>, pos: nat, md: seq<Entry>, add: Adder): Session
    decreases |lines| - pos
  {
    match Round(lines, pos, md, add)
    case Stop(events, result) => Session(events, result)
    case Next(events, next) =>
      var rest := Rounds(lines, pos + 4, next, add);
      Session(events + rest.events, rest.result)
  }

  /** The builder as a value: all rounds from the start of the input. */
  function Builder(lines: seq<string>): Session {
    Rounds(lines, 0, [], RoundAdd)
  }

  /** The "Current metadata object" listing, one line per key. */
  method ShowCurrent(md: seq<Entry>) returns (events: seq<Emit<Entry>>)
    ensures events == Current(md)
  {
    events := [];
    if |md| > 0 {
      events := [Info(CurrentHeading)];
      var i := 0;
      while i < |md|
        invariant 0 <= i <= |md|
        invariant events == [Info(CurrentHeading)] + Listing(md[..i])
      {
        assert md[..i + 1][..i] == md[..i];
        events := events + [KeyLine(md[i])];
        i := i + 1;
      }
      assert md[..i] == md;
    }
  }

  /** The first part of a round: the listing, the three prompts and
      answers, and the entry they add. */
  method AskRound(lines: seq<string>, pos: nat, md: seq<Entry>) returns (shown: seq<Emit<Entry>>, added: Outcome<seq<Entry>>)
    ensures shown == Asked(md)
    ensures added == RoundAdd(md, ReadLine(lines, pos), ReadLine(lines, pos + 1), ReadLine(lines, pos + 2))
  {
    shown := ShowCurrent(md);
    shown := shown + [Info(KeyPrompt)];
    var key := ReadLine(lines, pos);
    shown := shown + [Info(ValuePrompt)];
    var val := ReadLine(lines, pos + 1);
    shown := shown + [Info(FloatPrompt)];
    var yesNoVal := ReadLine(lines, pos + 2);
    if yesNoVal == Some("y") {
      if val.None? {
        added := Err(NullNumber);
      } else {
        var parsed := Parse(val.value);
        if parsed.Err? {
          added := Err(parsed.msg);
        } else {
          added := AddKey(md, key, Number(parsed.value));
        }
      }
    } else {
      added := AddKey(md, key, if val.Some? then Text(val.value) else Null);
    }
  }

  /** The four ways a round can end, given what its step added. */
  lemma RoundCases(lines: seq<string>, pos: nat, md: seq<Entry>, add: Adder, added: Outcome<seq<Entry>>)
    requires added == add(md, ReadLine(lines, pos), ReadLine(lines, pos + 1), ReadLine(lines, pos + 2))
    ensures added.Err? ==> Round(lines, pos, md, add) == Stop(Asked(md), added)
    ensures added.Ok? && ReadLine(lines, pos + 3).None? ==>
      Round(lines, pos, md, add) == Stop(Asked(md) + [Info(ContinuePrompt)], Err(NullReference))
    ensures added.Ok? && ReadLine(lines, pos + 3).Some? && Quits(ReadLine(lines, pos + 3).value) ==>
      Round(lines, pos, md, add) == Stop(Asked(md) + [Info(ContinuePrompt), Success(Finished)], added)
    ensures added.Ok? && ReadLine(lines, pos + 3).Some? && !Quits(ReadLine(lines, pos + 3).value) ==>
      Round(lines, pos, md, add) == Next(Asked(md) + [Info(ContinuePrompt)], added.value)
  {
  }

  /** The continue test `answer.ToLower() == "q"`. */
  method AnswerQuits(answer: string) returns (quits: bool)
    ensures quits <==> Quits(answer)
  {
    var q := Lower(answer);
    QuitsIsLowerQ(answer);
    quits := q == "q";
  }

  /** One pass of the do-while body. */
  method PlayRound(lines: seq<string>, pos: nat, md: seq<Entry>) returns (t: Turn)
    ensures t == Round(lines, pos, md, RoundAdd)
  {
    var shown, added := AskRound(lines, pos, md);
    RoundCases(lines, pos, md, RoundAdd, added);
    if added.Err? {
      return Stop(shown, added);
    }
    shown := shown + [Info(ContinuePrompt)];
    var answer := ReadLine(lines, pos + 3);
    if answer.None? {
      return Stop(shown, Err(NullReference));
    }
    var quits := AnswerQuits(answer.value);
    if quits {
      return Stop(shown + [Success(Finished)], Ok(added.value));
    }
    t := Next(shown, added.value);
  }

  /** A round that stops ends the session with its own events and result. */
  lemma StopEnds(whole: Session, shown: seq<Emit<Entry>>, lines: seq<string>, pos: nat, md: seq<Entry>, add: Adder, t: Turn)
    requires t == Round(lines, pos, md, add) && t.Stop?
    requires whole == Session(shown + Rounds(lines, pos, md, add).events, Rounds(lines, pos, md, add).result)
    ensures whole == Session(shown + t.events, t.result)
  {
  }

  /** A round that goes on leaves the session to the rounds from the next
      four lines, after its own events. */
  lemma NextContinues(whole: Session, shown: seq<Emit<Entry>>, lines: seq<string>, pos: nat, md: seq<Entry>, add: Adder, t: Turn)
    requires t == Round(lines, pos, md, add) && t.Next?
    requires whole == Session(shown + Rounds(lines, pos, md, add).events, Rounds(lines, pos, md, add).result)
    ensures whole == Session((shown + t.events) + Rounds(lines, pos + 4, t.md, add).events, Rounds(lines, pos + 4, t.md, add).result)
  {
    var rest := Rounds(lines, pos + 4, t.md, add);
    assert shown + (t.events + rest.events) == (shown + t.events) + rest.events;
  }

  /** `MetadataKeyValuesFromConsole`: the do-while loop over rounds. */
  method MetadataKeyValuesFromConsole(lines: seq<string>) returns (events: seq<Emit<Entry>>, r: Outcome<seq<Entry>>)
    ensures Session(events, r) == Builder(lines)
  {
    var pos := 0;
    var md: seq<Entry> := [];
    events := [];
    while true
      invariant Builder(lines) == Session(events + Rounds(lines, pos, md, RoundAdd).events, Rounds(lines, pos, md, RoundAdd).result)
      decreases |lines| - pos
    {
      var t := PlayRound(lines, pos, md);
      if t.Stop? {
        StopEnds(Builder(lines), events, lines, pos, md, RoundAdd, t);
        events := events + t.events;
        r := t.result;
        return;
      }
      NextContinues(Builder(lines), events, lines, pos, md, RoundAdd, t);
      events := events + t.events;
      md := t.md;
      pos := pos + 4;
    }
  }

  /** Only the exact answer "y" makes a decimal; any other answer, "Y"
      included, stores the text as it was typed. */
  lemma RoundValue(md: seq<Entry>, key: string, val: string, yesNo: Option<string>)
    requires key !in Keys(md)
    ensures yesNo != Some("y") ==> RoundAdd(md, Some(key), Some(val), yesNo) == Ok(md + [Entry(key, Text(val))])
    ensures yesNo == Some("y") ==>
      RoundAdd(md, Some(key), Some(val), yesNo) ==
        match Parse(val) {
          case Err(m) => Err(m)
          case Ok(d) => Ok(md + [Entry(key, Number(d))])
        }
  {
  }

  /** Input without any line that lower-cases to "q" never finishes: the
      builder ends in an exception once the input runs out. */
  lemma {:induction false} NoQuitFails(lines: seq<string>, pos: nat, md: seq<Entry>, add: Adder)
    requires forall j :: 0 <= j < |lines| ==> !Quits(lines[j])
    ensures Rounds(lines, pos, md, add).result.Err?
    decreases |lines| - pos
  {
    var t := Round(lines, pos, md, add);
    if t.Next? {
      NoQuitFails(lines, pos + 4, t.md, add);
    }
  }

  /** A round reads only its own four lines. */
  lemma RoundIsLocal(lines: seq<string>, extra: seq<string>, pos: nat, md: seq<Entry>, add: Adder)
    requires pos + 3 < |lines|
    ensures Round(lines + extra, pos, md, add) == Round(lines, pos, md, add)
  {
    var all := lines + extra;
    assert ReadLine(all, pos) == ReadLine(lines, pos);
    assert ReadLine(all, pos + 1) == ReadLine(lines, pos + 1);
    assert ReadLine(all, pos + 2) == ReadLine(lines, pos + 2);
    assert ReadLine(all, pos + 3) == ReadLine(lines, pos + 3);
  }

  /** A finished session reads no further: lines after the "q" answer are
      never consumed. */
  lemma {:induction false} FinishedIgnoresRest(lines: seq<string>, extra: seq<string>, pos: nat, md: seq<Entry>, add: Adder)
    requires Rounds(lines, pos, md, add).result.Ok?
    ensures Rounds(lines + extra, pos, md, add) == Rounds(lines, pos, md, add)
    decreases |lines| - pos
  {
    var t := Round(lines, pos, md, add);
    RoundIsLocal(lines, extra, pos, md, add);
    if t.Next? {
      FinishedIgnoresRest(lines, extra, pos + 4, t.md, add);
    }
  }

  /** The answer to the float question: "y" exactly for a decimal. */
  function FloatAnswer(v: Value): string {
    if v.Number? then "y" else "n"
  }

  /** The four answers that enter one entry, its value typed as `show`
      writes it, then the continue answer. */
  function EntryLines(e: Entry, cont: string, show: Value -> string): (ls: seq<string>)
    ensures |ls| == 4 && ls[0] == e.key && ls[3] == cont
  {
    [e.key, show(e.value), FloatAnswer(e.value), cont]
  }

  predicate Scriptable(es: seq<Entry>) {
    forall i :: 0 <= i < |es| ==> !es[i].value.Null?
  }

  /** The input that enters the entries in order and quits after the last. */
  function ScriptWith(es: seq<Entry>, show: Value -> string): (r: seq<string>)
    requires |es| > 0
    ensures |r| == 4 * |es|
  {
    if |es| == 1 then EntryLines(es[0], "q", show)
    else EntryLines(es[0], "", show) + ScriptWith(es[1..], show)
  }

  /** The script with each value typed as the builder displays it: the
      text, or the decimal in its invariant form. */
  function Script(es: seq<Entry>): seq<string>
    requires |es| > 0
  {
    ScriptWith(es, Render)
  }

  /** A step that adds an entry given its three answers, whenever the key is new. */
  ghost predicate Enters(add: Adder, show: Value -> string) {
    forall md: seq<Entry>, e: Entry {:trigger add(md, Some(e.key), Some(show(e.value)), Some(FloatAnswer(e.value)))} ::
      !e.value.Null? && Fresh(md, e.key) ==>
        add(md, Some(e.key), Some(show(e.value)), Some(FloatAnswer(e.value))) == Ok(md + [e])
  }

  /** `RoundAdd` enters every entry from its typed answers, decimals with
      their scale. */
  lemma RoundAddEnters()
    ensures Enters(RoundAdd, Render)
  {
    forall md: seq<Entry>, e: Entry | !e.value.Null? && Fresh(md, e.key)
      ensures RoundAdd(md, Some(e.key), Some(Render(e.value)), Some(FloatAnswer(e.value))) == Ok(md + [e])
    {
      FreshIsNotKey(md, e.key);
      if e.value.Number? {
        ParseFormat(e.value.d);
      }
    }
  }

  /** A round whose four lines enter an entry with a new key. */
  lemma EnteringRound(lines: seq<string>, p: nat, md: seq<Entry>, e: Entry, cont: string, add: Adder, show: Value -> string)
    requires !e.value.Null? && Fresh(md, e.key) && Enters(add, show)
    requires p + 3 < |lines| && lines[p..p + 4] == EntryLines(e, cont, show)
    ensures Quits(cont) ==> Round(lines, p, md, add) == Stop(Asked(md) + [Info(ContinuePrompt), Success(Finished)], Ok(md + [e]))
    ensures !Quits(cont) ==> Round(lines, p, md, add) == Next(Asked(md) + [Info(ContinuePrompt)], md + [e])
  {
    assert lines[p] == lines[p..p + 4][0];
    assert lines[p + 1] == lines[p..p + 4][1];
    assert lines[p + 2] == lines[p..p + 4][2];
    assert lines[p + 3] == lines[p..p + 4][3];
    assert add(md, Some(e.key), Some(show(e.value)), Some(FloatAnswer(e.value))) == Ok(md + [e]);
  }

  /** A round over the answers for `e`, with the continue answer `cont`,
      placed after `pre` and before whatever follows. */
  lemma PlacedRound(pre: seq<string>, md: seq<Entry>, e: Entry, cont: string, rest: seq<string>, add: Adder, show: Value -> string)
    requires !e.value.Null? && Fresh(md, e.key) && Enters(add, show)
    ensures Quits(cont) ==> Round(pre + EntryLines(e, cont, show) + rest, |pre|, md, add) == Stop(Asked(md) + [Info(ContinuePrompt), Success(Finished)], Ok(md + [e]))
    ensures !Quits(cont) ==> Round(pre + EntryLines(e, cont, show) + rest, |pre|, md, add) == Next(Asked(md) + [Info(ContinuePrompt)], md + [e])
  {
    var lines := pre + EntryLines(e, cont, show) + rest;
    assert lines[|pre|..|pre| + 4] == EntryLines(e, cont, show);
    EnteringRound(lines, |pre|, md, e, cont, add, show);
  }

  /** The first key of a batch of distinct keys is new, and moving it to
      the dictionary keeps the keys distinct. */
  lemma DistinctHead(md: seq<Entry>, es: seq<Entry>)
    requires |es| > 0 && Distinct(Keys(md + es))
    ensures Fresh(md, es[0].key)
    ensures md + [es[0]] + es[1..] == md + es
  {
    var ks := Keys(md + es);
    assert ks[|md|] == es[0].key;
    forall j | 0 <= j < |md| ensures md[j].key != es[0].key {
      assert ks[j] == md[j].key;
    }
    assert [es[0]] + es[1..] == es;
  }

  /** The last entry's lines, answered "q", finish the session with it added. */
  lemma LastBuilds(pre: seq<string>, md: seq<Entry>, e: Entry, add: Adder, show: Value -> string)
    requires !e.value.Null? && Fresh(md, e.key) && Enters(add, show)
    ensures Rounds(pre + ScriptWith([e], show), |pre|, md, add).result == Ok(md + [e])
  {
    var lines := pre + EntryLines(e, "q", show) + [];
    assert pre + ScriptWith([e], show) == lines;
    assert Quits("q");
    PlacedRound(pre, md, e, "q", [], add, show);
  }

  /** An entry's lines answered "" add it and hand the rest of the input to
      the next round. */
  lemma StepBuilds(pre: seq<string>, md: seq<Entry>, e: Entry, rest: seq<string>, add: Adder, show: Value -> string)
    requires !e.value.Null? && Fresh(md, e.key) && Enters(add, show)
    ensures Rounds(pre + EntryLines(e, "", show) + rest, |pre|, md, add).result
         == Rounds(pre + EntryLines(e, "", show) + rest, |pre| + 4, md + [e], add).result
  {
    assert !Quits("");
    PlacedRound(pre, md, e, "", rest, add, show);
  }

  /** Every round of a script with distinct new keys adds its entry; the
      last one, answered "q", ends the session with all of them. */
  lemma {:induction false} ScriptBuilds(pre: seq<string>, md: seq<Entry>, es: seq<Entry>, add: Adder, show: Value -> string)
    requires |es| > 0 && Scriptable(es) && Enters(add, show)
    requires Distinct(Keys(md + es))
    ensures Rounds(pre + ScriptWith(es, show), |pre|, md, add).result == Ok(md + es)
    decreases |es|
  {
    var e := es[0];
    DistinctHead(md, es);
    if |es| == 1 {
      assert es == [e];
      LastBuilds(pre, md, e, add, show);
    } else {
      var rest := ScriptWith(es[1..], show);
      var pre' := pre + EntryLines(e, "", show);
      assert pre + ScriptWith(es, show) == pre' + rest;
      StepBuilds(pre, md, e, rest, add, show);
      ScriptBuilds(pre', md + [e], es[1..], add, show);
    }
  }

  /** Round trip: the builder run on the script of entries with distinct
      keys returns exactly those entries, in order, decimals with their scale. */
  lemma BuilderRoundTrip(es: seq<Entry>)
    requires |es| > 0 && Scriptable(es) && Distinct(Keys(es))
    ensures Builder(Script(es)).result == Ok(es)
  {
    var none: seq<Entry> := [];
    assert none + es == es;
    RoundAddEnters();
    ScriptBuilds([], none, es, RoundAdd, Render);
    assert [] + Script(es) == Script(es);
  }
}
